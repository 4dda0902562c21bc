/** The input checks and character filters of `src/lib/sanitize.ts`. DOMPurify, which the
    name and email sanitizers call first, is a parameter: any function from strings to
    strings, so that what is proved holds whatever it returns. */
module Sanitize {
  import opened Types
  import opened Text
  import opened Seqs
  import opened Patterns

  // ---------------------------------------------------------------------------------------
  // validateSafeInput

  /** `\s*=` at the start of `s`. */
  predicate SpacesThenAssign(s: string)
  {
    s != [] && (s[0] == '=' || (IsSpace(s[0]) && SpacesThenAssign(s[1..])))
  }

  /** `\w+\s*=` at the start of `s`. */
  predicate WordThenAssign(s: string)
  {
    s != [] && IsWordChar(s[0]) && (SpacesThenAssign(s[1..]) || WordThenAssign(s[1..]))
  }

  /** `on\w+\s*=` occurs in the already lower-cased `s`. */
  predicate HandlerSearch(s: string)
  {
    (StartsWith(s, "on") && WordThenAssign(s[2..])) || (s != [] && HandlerSearch(s[1..]))
  }

  /** `/on\w+\s*=/gi`: an inline event-handler attribute such as `onclick =`. */
  predicate HasEventHandler(s: string)
  {
    HandlerSearch(Lower(s))
  }

  /** `/(javascript:|data:text\/html|vbscript:)/i` */
  predicate HasScriptScheme(s: string)
  {
    ContainsIgnoreCase(s, "javascript:") || ContainsIgnoreCase(s, "data:text/html")
    || ContainsIgnoreCase(s, "vbscript:")
  }

  /** The result of `validateSafeInput`: `{ valid, reason? }`. */
  datatype SafeCheck = SafeCheck(valid: bool, reason: Option<string>)

  const TagReason: string := "HTML tags are not allowed"
  const HandlerReason: string := "Event handlers are not allowed"
  const SqlReason: string := "Invalid characters detected"
  const SchemeReason: string := "Invalid URL scheme detected"

  /** `validateSafeInput`: the empty string is valid; otherwise the four patterns are tried
      in turn and the first that occurs gives the reason. */
  function ValidateSafeInput(input: string): (r: SafeCheck)
    ensures r.valid <==> r.reason.None?
  {
    if input == "" then SafeCheck(true, None)
    else if HasTag(input) then SafeCheck(false, Some(TagReason))
    else if HasEventHandler(input) then SafeCheck(false, Some(HandlerReason))
    else if HasSqlPattern(input) then SafeCheck(false, Some(SqlReason))
    else if HasScriptScheme(input) then SafeCheck(false, Some(SchemeReason))
    else SafeCheck(true, None)
  }

  /** None of the patterns occurs in the empty string. */
  lemma EmptyIsSafe()
    ensures !HasTag("") && !HasEventHandler("") && !HasSqlPattern("") && !HasScriptScheme("")
    ensures ValidateSafeInput("") == SafeCheck(true, None)
  {
    assert Lower("") == "";
  }

  /** An input is valid exactly when none of the four patterns occurs in it. */
  lemma SafeExactlyWhenNoPattern(input: string)
    ensures ValidateSafeInput(input).valid <==>
      !HasTag(input) && !HasEventHandler(input) && !HasSqlPattern(input) && !HasScriptScheme(input)
  {
    if input == "" {
      EmptyIsSafe();
    }
  }

  /** The reason names the first pattern, in the order tag, event handler, SQL keywords,
      script scheme, that occurs. */
  lemma FirstFailingReason(input: string)
    ensures HasTag(input) ==> ValidateSafeInput(input).reason == Some(TagReason)
    ensures !HasTag(input) && HasEventHandler(input) ==>
      ValidateSafeInput(input).reason == Some(HandlerReason)
    ensures !HasTag(input) && !HasEventHandler(input) && HasSqlPattern(input) ==>
      ValidateSafeInput(input).reason == Some(SqlReason)
    ensures !HasTag(input) && !HasEventHandler(input) && !HasSqlPattern(input) && HasScriptScheme(input) ==>
      ValidateSafeInput(input).reason == Some(SchemeReason)
  {
    if input == "" {
      EmptyIsSafe();
    }
  }

  // ---------------------------------------------------------------------------------------
  // The sanitizers

  /** `sanitizeInput`: the DOMPurify output (all tags stripped, text kept), trimmed. */
  function SanitizeInput(input: string, purify: string -> string): (r: string)
    ensures IsTrimmed(r)
    ensures input == "" ==> r == ""
  {
    if input == "" then "" else Trim(purify(input))
  }

  /** `sanitizePhone`: keeps only `[0-9+\s\-().]`, then trims. */
  function SanitizePhone(phone: string): string
  {
    if phone == "" then "" else Trim(Filter(phone, IsPhoneChar))
  }

  /** The sanitized phone number holds only phone characters, has no whitespace at either
      end, and is empty for an empty input. */
  lemma SanitizePhoneShape(phone: string)
    ensures var r := SanitizePhone(phone);
      && (forall i :: 0 <= i < |r| ==> IsPhoneChar(r[i]))
      && IsTrimmed(r)
      && (phone == "" ==> r == "")
  {
    if phone != "" {
      var f := Filter(phone, IsPhoneChar);
      TrimChars(f);
      var r := Trim(f);
      forall i | 0 <= i < |r|
        ensures IsPhoneChar(r[i])
      {
        assert r[i] in f;
      }
    }
  }

  /** Sanitizing a sanitized phone number changes nothing. */
  lemma SanitizePhoneIdempotent(phone: string)
    ensures SanitizePhone(SanitizePhone(phone)) == SanitizePhone(phone)
  {
    var r := SanitizePhone(phone);
    SanitizePhoneShape(phone);
    if r != "" {
      FilterKeepsAll(r, IsPhoneChar);
    }
  }

  /** Sanitizing keeps every digit of the number, in order: only other characters and the
      surrounding whitespace are dropped. */
  lemma SanitizePhoneKeepsDigits(phone: string)
    ensures Filter(SanitizePhone(phone), IsDigit) == Filter(phone, IsDigit)
  {
    if phone != "" {
      var f := Filter(phone, IsPhoneChar);
      FilterNested(phone, IsPhoneChar, IsDigit);
      TrimKeepsNonSpace(f, IsDigit);
    }
  }

  /** `sanitizeName`: DOMPurify and trim, then keep only `[a-zA-Z\s.',-]`, then trim. */
  function SanitizeName(name: string, purify: string -> string): string
  {
    if name == "" then "" else Trim(Filter(SanitizeInput(name, purify), IsNameChar))
  }

  /** Whatever DOMPurify returns, the sanitized name holds only name characters and has no
      whitespace at either end. */
  lemma SanitizeNameShape(name: string, purify: string -> string)
    ensures var r := SanitizeName(name, purify);
      && (forall i :: 0 <= i < |r| ==> IsNameChar(r[i]))
      && IsTrimmed(r)
      && (name == "" ==> r == "")
  {
    if name != "" {
      var f := Filter(SanitizeInput(name, purify), IsNameChar);
      TrimChars(f);
      var r := Trim(f);
      forall i | 0 <= i < |r|
        ensures IsNameChar(r[i])
      {
        assert r[i] in f;
      }
    }
  }

  /** `sanitizeEmail`: DOMPurify and trim, then lower-case and trim. */
  function SanitizeEmail(email: string, purify: string -> string): string
  {
    if email == "" then "" else Trim(Lower(SanitizeInput(email, purify)))
  }

  /** Whatever DOMPurify returns, the sanitized address is lower-cased and trimmed. */
  lemma SanitizeEmailShape(email: string, purify: string -> string)
    ensures var r := SanitizeEmail(email, purify);
      && IsLowerCased(r) && IsTrimmed(r)
      && (email == "" ==> r == "")
  {
    if email != "" {
      var l := Lower(SanitizeInput(email, purify));
      TrimChars(l);
      var r := Trim(l);
      forall i | 0 <= i < |r|
        ensures !IsUpper(r[i])
      {
        assert r[i] in l;
      }
    }
  }

  /** An address matching `EMAIL_REGEX` that DOMPurify leaves as it is comes out as its
      lower-case form, which still matches. */
  lemma SanitizeEmailKeepsAddress(email: string, purify: string -> string)
    requires IsEmail(email) && purify(email) == email
    ensures SanitizeEmail(email, purify) == Lower(email)
    ensures IsEmail(SanitizeEmail(email, purify))
  {
    EmailShape(email);
    EmailLowerCased(email);
    EmailShape(Lower(email));
  }
}
