/** The regular expressions that the server handler, the lead form and the sanitizer share,
    each written out as a predicate over characters. A predicate here holds exactly when the
    JavaScript `RegExp.prototype.test` of the named expression returns true. */
module Patterns {
  import opened Text
  import opened Seqs

  /** `/<[^>]*>/`: a `<` with a `>` somewhere after it (the first such `>` ends the match). */
  predicate HasTag(s: string)
  {
    s != [] && ((s[0] == '<' && '>' in s[1..]) || HasTag(s[1..]))
  }

  /** A string without `<` holds no tag. */
  lemma {:induction false} NoAngleNoTag(s: string)
    requires '<' !in s
    ensures !HasTag(s)
  {
    if s != [] {
      NoAngleNoTag(s[1..]);
    }
  }

  const SqlVerbs: seq<string> := ["drop", "delete", "insert", "update", "select", "union", "exec", "script"]
  const SqlObjects: seq<string> := ["table", "database", "from"]

  /** `s` starts with one of `words`. */
  predicate StartsWithAny(s: string, words: seq<string>)
  {
    words != [] && (StartsWith(s, words[0]) || StartsWithAny(s, words[1..]))
  }

  /** `\s+(table|database|from)` at the start of `s`. */
  predicate SpacesThenObject(s: string)
  {
    s != [] && IsSpace(s[0]) && (StartsWithAny(s[1..], SqlObjects) || SpacesThenObject(s[1..]))
  }

  /** `(verb)\s+(object)` at the start of `s`, for a verb among `verbs`. */
  predicate VerbThenObject(s: string, verbs: seq<string>)
  {
    verbs != []
    && ((StartsWith(s, verbs[0]) && SpacesThenObject(s[|verbs[0]|..])) || VerbThenObject(s, verbs[1..]))
  }

  /** The pattern occurs at some position of the already lower-cased `s`. */
  predicate SqlSearch(s: string)
  {
    VerbThenObject(s, SqlVerbs) || (s != [] && SqlSearch(s[1..]))
  }

  /** `/(drop|delete|insert|update|select|union|exec|script)\s+(table|database|from)/i` */
  predicate HasSqlPattern(s: string)
  {
    SqlSearch(Lower(s))
  }

  /** `[a-zA-Z\s.',-]` */
  predicate IsNameChar(c: char)
  {
    IsLetter(c) || IsSpace(c) || c == '.' || c == '\'' || c == ',' || c == '-'
  }

  /** `/^[a-zA-Z\s.',-]+$/` */
  predicate IsNameText(s: string)
  {
    s != [] && forall i :: 0 <= i < |s| ==> IsNameChar(s[i])
  }

  /** `[A-Za-z0-9._%+\-]` */
  predicate IsLocalChar(c: char)
  {
    IsLetter(c) || IsDigit(c) || c == '.' || c == '_' || c == '%' || c == '+' || c == '-'
  }

  /** `[A-Za-z0-9.\-]` */
  predicate IsDomainChar(c: char)
  {
    IsLetter(c) || IsDigit(c) || c == '.' || c == '-'
  }

  predicate AllLocal(s: string) { forall i :: 0 <= i < |s| ==> IsLocalChar(s[i]) }
  predicate AllDomain(s: string) { forall i :: 0 <= i < |s| ==> IsDomainChar(s[i]) }

  /** `d` splits at the dot `k` as `[A-Za-z0-9.\-]+\.[A-Za-z]{2,}`. */
  predicate DomainSplitAt(d: string, k: int)
  {
    0 < k < |d| - 2 && d[k] == '.' && AllDomain(d[..k]) && AllLetters(d[k + 1..])
  }

  /** `[A-Za-z0-9.\-]+\.[A-Za-z]{2,}` matches all of `d`. */
  predicate IsDomain(d: string)
  {
    exists k | 0 < k < |d| - 2 :: DomainSplitAt(d, k)
  }

  /** `s` splits at the `@` with index `a` as local part, `@`, domain. */
  predicate EmailSplitAt(s: string, a: int)
  {
    0 < a < |s| && s[a] == '@' && AllLocal(s[..a]) && IsDomain(s[a + 1..])
  }

  /** `EMAIL_REGEX`, `/^[A-Za-z0-9._%+\-]+@[A-Za-z0-9.\-]+\.[A-Za-z]{2,}$/` */
  predicate IsEmail(s: string)
  {
    exists a | 0 < a < |s| :: EmailSplitAt(s, a)
  }

  /** A domain is made of domain characters only. */
  lemma DomainChars(d: string)
    requires IsDomain(d)
    ensures AllDomain(d)
  {
    var k :| 0 < k < |d| - 2 && DomainSplitAt(d, k);
    forall j | 0 <= j < |d|
      ensures IsDomainChar(d[j])
    {
      if j < k {
        assert d[j] == d[..k][j];
      } else if k < j {
        assert d[j] == d[k + 1..][j - k - 1];
      }
    }
  }

  /** An address that matches is made of local-part characters around one `@`, at `a`. */
  lemma EmailChars(s: string) returns (a: nat)
    requires IsEmail(s)
    ensures a < |s| && s[a] == '@'
    ensures forall i :: 0 <= i < |s| && i != a ==> IsLocalChar(s[i])
  {
    a :| 0 < a < |s| && EmailSplitAt(s, a);
    var d := s[a + 1..];
    DomainChars(d);
    forall i | 0 <= i < |s| && i != a
      ensures IsLocalChar(s[i])
    {
      if i < a {
        assert s[i] == s[..a][i];
      } else {
        assert s[i] == d[i - a - 1];
      }
    }
  }

  /** An address that matches has exactly one `@`, no whitespace and no `<`, so it
      has no tag and trimming leaves it as it is. */
  lemma EmailShape(s: string)
    requires IsEmail(s)
    ensures '<' !in s && IsTrimmed(s) && !HasTag(s)
    ensures forall i, j :: 0 <= i < j < |s| && s[i] == '@' ==> s[j] != '@'
  {
    var a := EmailChars(s);
    assert !IsSpace(s[0]) && !IsSpace(s[|s| - 1]);
    NoAngleNoTag(s);
  }

  /** Lower-casing an address keeps it an address: the normalised address the handler
      stores still matches `EMAIL_REGEX`. */
  lemma EmailLowerCased(s: string)
    requires IsEmail(s)
    ensures IsEmail(Lower(s))
  {
    var a :| 0 < a < |s| && EmailSplitAt(s, a);
    var d := s[a + 1..];
    var k :| 0 < k < |d| - 2 && DomainSplitAt(d, k);
    var t := Lower(s);
    var e := t[a + 1..];
    forall i | 0 <= i < a
      ensures IsLocalChar(t[..a][i])
    {
      assert s[..a][i] == s[i];
    }
    forall j | 0 <= j < k
      ensures IsDomainChar(e[..k][j])
    {
      assert d[..k][j] == d[j] == s[a + 1 + j];
    }
    forall j | k + 1 <= j < |e|
      ensures IsLetter(e[j])
    {
      assert d[k + 1..][j - k - 1] == d[j] == s[a + 1 + j];
    }
    assert AllLetters(e[k + 1..]);
    assert DomainSplitAt(e, k);
    assert EmailSplitAt(t, a);
  }

  /** `[\s\-().+]`, the class `PHONE_CLEAN_REGEX` removes. */
  predicate IsPhoneSeparator(c: char)
  {
    IsSpace(c) || c == '-' || c == '(' || c == ')' || c == '.' || c == '+'
  }

  /** `phone.replace(PHONE_CLEAN_REGEX, "")` */
  function PhoneDigits(s: string): string
  {
    Remove(s, IsPhoneSeparator)
  }

  /** `PHONE_DIGITS_REGEX`, `/^[0-9]{7,15}$/` */
  predicate IsDigitRun(s: string)
  {
    7 <= |s| <= 15 && AllDigits(s)
  }

  /** The phone rule shared by the handler and the form: 7 to 15 digits once the
      separators are removed. */
  predicate IsPhone(s: string)
  {
    IsDigitRun(PhoneDigits(s))
  }

  /** `[0-9+\s\-().]` */
  predicate IsPhoneChar(c: char)
  {
    IsDigit(c) || c == '+' || IsSpace(c) || c == '-' || c == '(' || c == ')' || c == '.'
  }

  /** `/^[0-9+\s\-().]+$/` */
  predicate IsPhoneText(s: string)
  {
    s != [] && forall i :: 0 <= i < |s| ==> IsPhoneChar(s[i])
  }

  /** A phone number that passes the digit rule contains only phone characters, no `<`
      and therefore no tag. */
  lemma PhoneShape(s: string)
    requires IsPhone(s)
    ensures IsPhoneText(s)
    ensures '<' !in s && !HasTag(s)
  {
    var r := PhoneDigits(s);
    forall i | 0 <= i < |s|
      ensures IsPhoneChar(s[i])
    {
      if !IsPhoneSeparator(s[i]) {
        FilterMembers(s, Not(IsPhoneSeparator), s[i]);
        var j :| 0 <= j < |r| && r[j] == s[i];
        assert IsDigit(r[j]);
      }
    }
    NoAngleNoTag(s);
  }
}
