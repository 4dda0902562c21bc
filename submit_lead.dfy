/** The public lead-intake endpoint (`supabase/functions/submit-lead/index.ts`): CORS
    admission, payload validation, client address extraction, the bot-check gate, the
    two-window rate limit over the `leads` table, and the single normalised insert. The
    table is a class holding its rows; the bot-verification service, the availability of
    the two count queries, the outcome of the insert and the clock are inputs of a request. */
module SubmitLead {
  import opened Types
  import opened Text
  import opened Patterns
  import opened Seqs
  import LeadsManager

  // ---------------------------------------------------------------------------------------
  // CORS admission

  /** `ALLOWED_ORIGINS` */
  const AllowedOrigins: seq<string> := [
    "https://padmalayagroup.in",
    "https://www.padmalayagroup.in",
    "https://padmalaya.vercel.app",
    "https://padmalaya-git-main-toolscosvalt.vercel.app",
    "https://padmalaya-toolscosvalt.vercel.app",
    "http://localhost:5173",
    "http://localhost:5174",
    "http://localhost:5175",
    "http://localhost:5176",
    "http://127.0.0.1:5173",
    "http://127.0.0.1:5174",
    "http://127.0.0.1:5175",
    "http://127.0.0.1:5176"]

  const PreviewPrefix: string := "https://padmalaya-"
  const PreviewSuffix: string := ".vercel.app"

  /** `[a-z0-9-]` */
  predicate IsPreviewLabelChar(c: char)
  {
    IsLower(c) || IsDigit(c) || c == '-'
  }

  /** `/^https:\/\/padmalaya-[a-z0-9-]+\.vercel\.app$/`: the label between the fixed prefix
      and suffix is non-empty and cannot contain a dot, so the split is unique. */
  predicate IsPreviewOrigin(o: string)
  {
    && |o| > |PreviewPrefix| + |PreviewSuffix|
    && StartsWith(o, PreviewPrefix)
    && o[|o| - |PreviewSuffix|..] == PreviewSuffix
    && forall i :: |PreviewPrefix| <= i < |o| - |PreviewSuffix| ==> IsPreviewLabelChar(o[i])
  }

  /** The request may be answered with its own origin: a non-empty `Origin` header that is
      listed or is a preview deployment. */
  predicate IsAllowedOrigin(origin: Option<string>)
  {
    origin.Some? && origin.value != "" && (origin.value in AllowedOrigins || IsPreviewOrigin(origin.value))
  }

  datatype CorsHeaders = CorsHeaders(
    allowOrigin: string, allowMethods: string, allowHeaders: string, maxAge: string, vary: string)

  /** `getCorsHeaders`: the request's own origin when it is admitted, and otherwise the first
      listed origin; the other headers are fixed. */
  function GetCorsHeaders(origin: Option<string>): (h: CorsHeaders)
    ensures h.allowMethods == "POST, OPTIONS"
  {
    CorsHeaders(
      if IsAllowedOrigin(origin) then origin.value else AllowedOrigins[0],
      "POST, OPTIONS",
      "Content-Type, Authorization, X-Client-Info, Apikey",
      "86400",
      "Origin")
  }

  /** The allow-origin header reflects the request's origin exactly when that origin is
      admitted, and otherwise names the first listed origin; so the header never carries an
      origin that is neither listed nor a preview deployment. The other headers are fixed,
      and `Vary: Origin` keeps shared caches from mixing origins. */
  lemma CorsAdmission(origin: Option<string>)
    ensures var h := GetCorsHeaders(origin);
      && ((origin.Some? && h.allowOrigin == origin.value) <==> IsAllowedOrigin(origin))
      && (!IsAllowedOrigin(origin) ==> h.allowOrigin == AllowedOrigins[0])
      && (h.allowOrigin in AllowedOrigins || IsPreviewOrigin(h.allowOrigin))
      && h.allowHeaders == "Content-Type, Authorization, X-Client-Info, Apikey"
      && h.maxAge == "86400" && h.vary == "Origin"
  {
  }

  // ---------------------------------------------------------------------------------------
  // Payload validation

  /** A member of the parsed JSON body: absent (or `null`), a string, or any other JSON
      value, of which only its JavaScript truthiness matters here. */
  datatype JsValue = Missing | JStr(s: string) | JOther(truthy: bool)

  predicate Truthy(v: JsValue)
  {
    match v
    case Missing => false
    case JStr(s) => s != ""
    case JOther(t) => t
  }

  /** `LeadPayload`, as it arrives: nothing about its members is known before validation. */
  datatype Payload = Payload(
    name: JsValue, email: JsValue, phone: JsValue, preferredContactTime: JsValue,
    interest: JsValue, heardFrom: JsValue, message: JsValue, turnstileToken: JsValue)

  datatype Field = NameField | EmailField | PhoneField | ContactTimeField
                 | InterestField | HeardFromField | MessageField | TokenField

  /** The `field` member of a reported error. */
  function FieldName(f: Field): string
  {
    match f
    case NameField => "name"
    case EmailField => "email"
    case PhoneField => "phone"
    case ContactTimeField => "preferred_contact_time"
    case InterestField => "interest"
    case HeardFromField => "heard_from"
    case MessageField => "message"
    case TokenField => "turnstileToken"
  }

  datatype ValidationError = ValidationError(field: Field, message: string)

  /** A string member that JavaScript treats as present: `data.x && typeof data.x === "string"`. */
  predicate IsText(v: JsValue)
  {
    v.JStr? && v.s != ""
  }

  const PhoneCharsMessage: string := "Phone number contains invalid characters."

  /** The name rule, lines 80-95, as one if/else-if chain: the first failing check. */
  function NameCheck(v: JsValue): Option<string>
  {
    if !IsText(v) then Some("Name is required.")
    else
      var t := Trim(v.s);
      if |t| < 2 || |t| > 100 then Some("Name must be between 2 and 100 characters.")
      else if HasTag(t) then Some("Name cannot contain HTML tags.")
      else if HasSqlPattern(t) then Some("Name contains invalid characters.")
      else if !IsNameText(t) then Some("Name can only contain letters, spaces, and basic punctuation.")
      else None
  }

  /** The email rule, lines 99-110. */
  function EmailCheck(v: JsValue): Option<string>
  {
    if !IsText(v) then Some("Email is required.")
    else if HasTag(Trim(v.s)) then Some("Email cannot contain HTML tags.")
    else if !IsEmail(Trim(v.s)) then Some("Please provide a valid email address.")
    else None
  }

  /** The phone rule, lines 113-129. */
  function PhoneCheck(v: JsValue): Option<string>
  {
    if !IsText(v) then Some("Phone number is required.")
    else
      var t := Trim(v.s);
      if HasTag(t) then Some("Phone number cannot contain HTML tags.")
      else if !IsPhone(t) then Some("Please provide a valid phone number (7-15 digits).")
      else if !IsPhoneText(t) then Some(PhoneCharsMessage)
      else None
  }

  /** Lines 131-133: `includes` never holds for a non-string. */
  function ContactTimeCheck(v: JsValue): Option<string>
  {
    if !(IsText(v) && v.s in ContactTimeNames) then Some("Please select a valid contact time.") else None
  }

  /** Lines 135-137. */
  function InterestCheck(v: JsValue): Option<string>
  {
    if !(IsText(v) && v.s in InterestNames) then Some("Please select a valid area of interest.") else None
  }

  /** Lines 139-141: only a truthy value is checked. */
  function HeardFromCheck(v: JsValue): Option<string>
  {
    if Truthy(v) && !(v.JStr? && v.s in HeardFromNames) then Some("Invalid source value.") else None
  }

  /** `/<script|javascript:|onerror=|onload=/i` */
  predicate HasScript(s: string)
  {
    || ContainsIgnoreCase(s, "<script") || ContainsIgnoreCase(s, "javascript:")
    || ContainsIgnoreCase(s, "onerror=") || ContainsIgnoreCase(s, "onload=")
  }

  /** Lines 144-152: only a non-empty string is checked, and its length is the untrimmed one. */
  function MessageCheck(v: JsValue): Option<string>
  {
    if !IsText(v) then None
    else if |v.s| > 1000 then Some("Message must not exceed 1000 characters.")
    else if HasScript(v.s) then Some("Message contains prohibited content.")
    else None
  }

  /** Lines 155-159. */
  function TokenCheck(v: JsValue): Option<string>
  {
    if !IsText(v) then Some("Security verification is required.")
    else if Trim(v.s) == "" then Some("Security verification token is invalid.")
    else None
  }

  /** `errors.push(...)` when a field's check found a fault, with that field. */
  function Push(errors: seq<ValidationError>, f: Field, check: Option<string>): (r: seq<ValidationError>)
    ensures |r| == |errors| + (if check.Some? then 1 else 0)
  {
    if check.Some? then errors + [ValidationError(f, check.value)] else errors
  }

  /** The fields in the order `validatePayload` checks them. */
  const Fields: seq<Field> := [NameField, EmailField, PhoneField, ContactTimeField,
                               InterestField, HeardFromField, MessageField, TokenField]

  /** The position of a field in that order. */
  function FieldIndex(f: Field): (i: nat)
    ensures i < |Fields| && Fields[i] == f
  {
    match f
    case NameField => 0
    case EmailField => 1
    case PhoneField => 2
    case ContactTimeField => 3
    case InterestField => 4
    case HeardFromField => 5
    case MessageField => 6
    case TokenField => 7
  }

  /** Each position of the order holds a different field. */
  lemma FieldIndexOf(i: nat)
    requires i < |Fields|
    ensures FieldIndex(Fields[i]) == i
  {
  }

  /** The outcome of every field's check, in the order of the source. */
  function Checks(p: Payload): (c: seq<Option<string>>)
    ensures |c| == |Fields|
  {
    [NameCheck(p.name), EmailCheck(p.email), PhoneCheck(p.phone),
     ContactTimeCheck(p.preferredContactTime), InterestCheck(p.interest),
     HeardFromCheck(p.heardFrom), MessageCheck(p.message), TokenCheck(p.turnstileToken)]
  }

  /** The errors pushed by the first `k` field checks, one field after another. */
  function Reports(c: seq<Option<string>>, k: nat): seq<ValidationError>
    requires |c| == |Fields| && k <= |Fields|
  {
    if k == 0 then [] else Push(Reports(c, k - 1), Fields[k - 1], c[k - 1])
  }

  /** The list `validatePayload` returns: every field's check, pushed in the order of the source. */
  function PayloadErrors(p: Payload): seq<ValidationError>
  {
    var name := Push([], NameField, NameCheck(p.name));
    var email := Push(name, EmailField, EmailCheck(p.email));
    var phone := Push(email, PhoneField, PhoneCheck(p.phone));
    var contactTime := Push(phone, ContactTimeField, ContactTimeCheck(p.preferredContactTime));
    var interest := Push(contactTime, InterestField, InterestCheck(p.interest));
    var heardFrom := Push(interest, HeardFromField, HeardFromCheck(p.heardFrom));
    var message := Push(heardFrom, MessageField, MessageCheck(p.message));
    Push(message, TokenField, TokenCheck(p.turnstileToken))
  }

  /** All the reports, unfolded field by field. */
  lemma ReportsUnfolded(c: seq<Option<string>>)
    requires |c| == |Fields|
    ensures Reports(c, |Fields|)
            == Push(Push(Push(Push(Push(Push(Push(Push([],
                 NameField, c[0]), EmailField, c[1]), PhoneField, c[2]), ContactTimeField, c[3]),
                 InterestField, c[4]), HeardFromField, c[5]), MessageField, c[6]), TokenField, c[7])
  {
    assert Reports(c, 1) == Push([], NameField, c[0]);
    assert Reports(c, 2) == Push(Reports(c, 1), EmailField, c[1]);
    assert Reports(c, 3) == Push(Reports(c, 2), PhoneField, c[2]);
    assert Reports(c, 4) == Push(Reports(c, 3), ContactTimeField, c[3]);
    assert Reports(c, 5) == Push(Reports(c, 4), InterestField, c[4]);
    assert Reports(c, 6) == Push(Reports(c, 5), HeardFromField, c[5]);
    assert Reports(c, 7) == Push(Reports(c, 6), MessageField, c[6]);
  }

  /** The same list, as the reports of all the fields in order. */
  lemma PayloadErrorsInOrder(p: Payload)
    ensures PayloadErrors(p) == Reports(Checks(p), |Fields|)
  {
    var c := Checks(p);
    ReportsUnfolded(c);
    assert c[0] == NameCheck(p.name) && c[1] == EmailCheck(p.email) && c[2] == PhoneCheck(p.phone);
    assert c[3] == ContactTimeCheck(p.preferredContactTime) && c[4] == InterestCheck(p.interest);
    assert c[5] == HeardFromCheck(p.heardFrom) && c[6] == MessageCheck(p.message);
    assert c[7] == TokenCheck(p.turnstileToken);
  }

  /** The reports of the first `k` fields hold one error for field `f` when `f` is among
      them and its check failed, and none otherwise. */
  lemma {:induction false} ReportsFor(c: seq<Option<string>>, k: nat, f: Field)
    requires |c| == |Fields| && k <= |Fields|
    ensures |Filter(Reports(c, k), IsAbout(f))| == if FieldIndex(f) < k && c[FieldIndex(f)].Some? then 1 else 0
  {
    if k > 0 {
      ReportsFor(c, k - 1, f);
      FieldIndexOf(k - 1);
      if c[k - 1].Some? {
        FilterAppend(Reports(c, k - 1), [ValidationError(Fields[k - 1], c[k - 1].value)], IsAbout(f));
      }
    }
  }

  /** The reports of the first `k` fields are empty exactly when none of their checks failed. */
  lemma {:induction false} ReportsEmpty(c: seq<Option<string>>, k: nat)
    requires |c| == |Fields| && k <= |Fields|
    ensures Reports(c, k) == [] <==> forall i :: 0 <= i < k ==> c[i].None?
  {
    if k > 0 {
      ReportsEmpty(c, k - 1);
    }
  }

  // The field rules as conditions on the value, independent of the order of the checks.

  predicate NameOk(v: JsValue)
  {
    IsText(v) && 2 <= |Trim(v.s)| <= 100 && !HasTag(Trim(v.s)) && !HasSqlPattern(Trim(v.s))
    && IsNameText(Trim(v.s))
  }

  predicate EmailOk(v: JsValue)
  {
    IsText(v) && !HasTag(Trim(v.s)) && IsEmail(Trim(v.s))
  }

  predicate PhoneOk(v: JsValue)
  {
    IsText(v) && !HasTag(Trim(v.s)) && IsPhone(Trim(v.s)) && IsPhoneText(Trim(v.s))
  }

  predicate MessageOk(v: JsValue)
  {
    IsText(v) ==> |v.s| <= 1000 && !HasScript(v.s)
  }

  predicate FieldOk(p: Payload, f: Field)
  {
    match f
    case NameField => NameOk(p.name)
    case EmailField => EmailOk(p.email)
    case PhoneField => PhoneOk(p.phone)
    case ContactTimeField => IsText(p.preferredContactTime) && p.preferredContactTime.s in ContactTimeNames
    case InterestField => IsText(p.interest) && p.interest.s in InterestNames
    case HeardFromField => Truthy(p.heardFrom) ==> p.heardFrom.JStr? && p.heardFrom.s in HeardFromNames
    case MessageField => MessageOk(p.message)
    case TokenField => IsText(p.turnstileToken) && Trim(p.turnstileToken.s) != ""
  }

  predicate PayloadOk(p: Payload)
  {
    forall f: Field :: FieldOk(p, f)
  }

  lemma NameRule(v: JsValue)
    ensures NameCheck(v) == None <==> NameOk(v)
  {
  }

  lemma EmailRule(v: JsValue)
    ensures EmailCheck(v) == None <==> EmailOk(v)
  {
  }

  lemma PhoneRule(v: JsValue)
    ensures PhoneCheck(v) == None <==> PhoneOk(v)
  {
  }

  lemma MessageRule(v: JsValue)
    ensures MessageCheck(v) == None <==> MessageOk(v)
  {
  }

  /** The check of a field finds a fault exactly when the field breaks its rule. */
  lemma CheckMatchesRule(p: Payload, f: Field)
    ensures (FieldCheck(p, f) == None) <==> FieldOk(p, f)
  {
    var c := Checks(p);
    match f
    case NameField => assert FieldCheck(p, f) == c[0]; NameRule(p.name);
    case EmailField => assert FieldCheck(p, f) == c[1]; EmailRule(p.email);
    case PhoneField => assert FieldCheck(p, f) == c[2]; PhoneRule(p.phone);
    case ContactTimeField => assert FieldCheck(p, f) == c[3];
    case InterestField => assert FieldCheck(p, f) == c[4];
    case HeardFromField => assert FieldCheck(p, f) == c[5];
    case MessageField => assert FieldCheck(p, f) == c[6]; MessageRule(p.message);
    case TokenField => assert FieldCheck(p, f) == c[7];
  }

  /** The check of field `f`. */
  function FieldCheck(p: Payload, f: Field): Option<string>
  {
    Checks(p)[FieldIndex(f)]
  }

  /** The errors reported against field `f`. */
  function ErrorsFor(errors: seq<ValidationError>, f: Field): seq<ValidationError>
  {
    Filter(errors, IsAbout(f))
  }

  function IsAbout(f: Field): ValidationError -> bool
  {
    (e: ValidationError) => e.field == f
  }

  /** Validation is not fail-fast: every field that breaks its rule is reported, exactly
      once, and a field that keeps its rule is not reported at all. */
  lemma EachFieldReportedOnce(p: Payload, f: Field)
    ensures |ErrorsFor(PayloadErrors(p), f)| == if FieldOk(p, f) then 0 else 1
  {
    PayloadErrorsInOrder(p);
    ReportsFor(Checks(p), |Fields|, f);
    CheckMatchesRule(p, f);
  }

  /** Every field's check fails exactly when the field breaks its rule. */
  lemma ChecksMatchRules(p: Payload)
    ensures forall f: Field :: FieldCheck(p, f) == None <==> FieldOk(p, f)
  {
    forall f: Field
      ensures FieldCheck(p, f) == None <==> FieldOk(p, f)
    {
      CheckMatchesRule(p, f);
    }
  }

  /** Every check passes exactly when every field keeps its rule, for any checks and rules
      that agree field by field. */
  lemma AllChecksPass(c: seq<Option<string>>, check: Field -> Option<string>, ok: Field -> bool)
    requires |c| == |Fields|
    requires forall f: Field :: c[FieldIndex(f)] == check(f)
    requires forall f: Field :: check(f) == None <==> ok(f)
    ensures (forall i :: 0 <= i < |c| ==> c[i].None?) <==> forall f: Field :: ok(f)
  {
    ChecksInFieldOrder(c, check);
  }

  /** Checks looked up by field, read position by position. */
  lemma ChecksInFieldOrder(c: seq<Option<string>>, check: Field -> Option<string>)
    requires |c| == |Fields|
    requires forall f: Field :: c[FieldIndex(f)] == check(f)
    ensures forall i :: 0 <= i < |c| ==> c[i] == check(Fields[i])
  {
    forall i | 0 <= i < |c|
      ensures c[i] == check(Fields[i])
    {
      assert FieldIndex(Fields[i]) == i;
    }
  }

  /** The list is empty exactly when every field keeps its rule. */
  lemma PayloadErrorsEmpty(p: Payload)
    ensures PayloadErrors(p) == [] <==> PayloadOk(p)
  {
    PayloadErrorsInOrder(p);
    ReportsEmpty(Checks(p), |Fields|);
    ChecksMatchRules(p);
    AllChecksPass(Checks(p), f => FieldCheck(p, f), f => FieldOk(p, f));
  }

  /** `validatePayload`: the errors are collected by successive pushes, at most one per
      field (each field's if/else-if chain is that field's check function above); the
      result is the list above, empty exactly when the payload is valid. */
  method ValidatePayload(p: Payload) returns (errors: seq<ValidationError>)
    ensures errors == PayloadErrors(p)
  {
    errors := [];
    errors := Push(errors, NameField, NameCheck(p.name));
    errors := Push(errors, EmailField, EmailCheck(p.email));
    errors := Push(errors, PhoneField, PhoneCheck(p.phone));
    errors := Push(errors, ContactTimeField, ContactTimeCheck(p.preferredContactTime));
    errors := Push(errors, InterestField, InterestCheck(p.interest));
    errors := Push(errors, HeardFromField, HeardFromCheck(p.heardFrom));
    errors := Push(errors, MessageField, MessageCheck(p.message));
    errors := Push(errors, TokenField, TokenCheck(p.turnstileToken));
  }

  /** The "invalid characters" branch of the phone rule (line 125) is never taken: a phone
      number whose separators strip down to 7-15 digits is made of phone characters only. */
  lemma PhoneCharsBranchUnreachable(v: JsValue)
    ensures PhoneCheck(v) != Some(PhoneCharsMessage)
  {
    if IsText(v) && IsPhone(Trim(v.s)) {
      PhoneShape(Trim(v.s));
    }
  }

  // ---------------------------------------------------------------------------------------
  // Client address

  /** `getClientIp`: the first comma-separated entry of `x-forwarded-for`, trimmed, when that
      is non-empty; otherwise `x-real-ip` when non-empty; otherwise none. An address is never
      the empty string. */
  function GetClientIp(forwardedFor: Option<string>, realIp: Option<string>): (ip: Option<string>)
    ensures ip.Some? ==> ip.value != ""
  {
    if forwardedFor.Some? && FirstHop(forwardedFor.value) != "" then Some(FirstHop(forwardedFor.value))
    else if realIp.Some? && realIp.value != "" then realIp
    else None
  }

  /** The forwarded entry wins when it is non-empty, and it holds no comma and is trimmed;
      otherwise the real-IP header is used when non-empty. */
  lemma ClientIpChoice(forwardedFor: Option<string>, realIp: Option<string>)
    ensures var ip := GetClientIp(forwardedFor, realIp);
      && (forwardedFor.Some? && FirstHop(forwardedFor.value) != "" ==>
            ip == Some(FirstHop(forwardedFor.value)) && ',' !in ip.value && IsTrimmed(ip.value))
      && ((forwardedFor.None? || FirstHop(forwardedFor.value) == "") ==>
            ip == (if realIp.Some? && realIp.value != "" then realIp else None))
  {
  }

  /** `value.split(",")[0].trim()` */
  function FirstHop(value: string): (r: string)
    ensures ',' !in r && IsTrimmed(r)
  {
    var first := BeforeFirst(value, ',');
    TrimChars(first);
    Trim(first)
  }

  // ---------------------------------------------------------------------------------------
  // Rate limit

  const EmailLimitMax: nat := 3
  const EmailWindowMs: int := 24 * 60 * 60 * 1000
  const IpLimitMax: nat := 5
  const IpWindowMs: int := 1 * 60 * 60 * 1000
  const EmailLimitReason: string :=
    "You have already submitted 3 enquiries in the last 24 hours. Please try again later or contact us directly."
  const IpLimitReason: string :=
    "Too many submissions from your connection. Please wait an hour before trying again."

  /** `count ?? 0` */
  function OrZero(n: Option<nat>): nat
  {
    if n.Some? then n.value else 0
  }

  datatype RateDecision = RateDecision(limited: bool, reason: string)

  /** The decision `checkRateLimit` takes on the counts its queries return (`None` when a
      query returned no count): the e-mail window is checked first and decides alone when it
      limits; the address window is consulted only for a non-empty address. */
  function RateLimitDecision(emailCount: Option<nat>, ip: Option<string>, ipCount: Option<nat>): (d: RateDecision)
    ensures d.limited <==> OrZero(emailCount) >= EmailLimitMax
                           || (ip.Some? && ip.value != "" && OrZero(ipCount) >= IpLimitMax)
    ensures OrZero(emailCount) >= EmailLimitMax ==> d.reason == EmailLimitReason
    ensures d.limited && OrZero(emailCount) < EmailLimitMax ==> d.reason == IpLimitReason
    ensures !d.limited ==> d.reason == ""
  {
    if OrZero(emailCount) >= EmailLimitMax then RateDecision(true, EmailLimitReason)
    else if ip.Some? && ip.value != "" && OrZero(ipCount) >= IpLimitMax then RateDecision(true, IpLimitReason)
    else RateDecision(false, "")
  }

  function SameEmailSince(email: string, since: int): Lead -> bool
  {
    (l: Lead) => l.email == email && l.createdAt >= since
  }

  function SameIpSince(ip: string, since: int): Lead -> bool
  {
    (l: Lead) => l.sourceIp == Some(ip) && l.createdAt >= since
  }

  /** The count query `.eq("email", email).gte("created_at", since)`. */
  function EmailCount(rows: seq<Lead>, email: string, since: int): nat
  {
    Count(rows, SameEmailSince(email, since))
  }

  /** The count query `.eq("source_ip", ip).gte("created_at", since)`. */
  function IpCount(rows: seq<Lead>, ip: string, since: int): nat
  {
    Count(rows, SameIpSince(ip, since))
  }

  /** A row appended to the table adds one to a count exactly when it matches. */
  lemma CountAppend(rows: seq<Lead>, l: Lead, p: Lead -> bool)
    ensures Count(rows + [l], p) == Count(rows, p) + (if p(l) then 1 else 0)
  {
    FilterAppend(rows, [l], p);
  }

  // ---------------------------------------------------------------------------------------
  // The handler

  /** The verdict of `verifyTurnstile`: failures carry the message sent to the caller. */
  datatype BotVerdict = Verified | Rejected(error: string)

  /** The outcome of the insert: the identifier the database assigns, or an error. */
  datatype InsertResult = Inserted(id: string) | InsertFailed

  /** What the collaborators outside the handler answer during one request, and the time. */
  datatype Services = Services(
    bot: BotVerdict, emailCountAnswered: bool, ipCountAnswered: bool, insert: InsertResult, now: int)

  /** The request body: not JSON, the JSON literal `null`, or any other JSON value (a value
      that is not an object has every member missing). */
  datatype Body = Malformed | JsonNull | Parsed(payload: Payload)

  datatype Request = Request(
    verb: string, origin: Option<string>, forwardedFor: Option<string>, realIp: Option<string>, body: Body)

  datatype ResponseBody =
    | NoBody
    | Failure(error: string)
    | Invalid(details: seq<ValidationError>)   // { error: "Validation failed.", details }
    | Created(id: string)                      // { success: true, id }

  /** Status, CORS headers, whether `Content-Type: application/json` is added, and body. */
  datatype Response = Response(status: int, cors: CorsHeaders, json: bool, body: ResponseBody)

  datatype Outcome = Outcome(response: Response, written: Option<Lead>)

  const UnexpectedError: string := "An unexpected error occurred. Please try again."
  const SaveFailed: string := "Failed to save your enquiry. Please try again."

  /** The text of a member that validation found to be a string. */
  function TextOf(v: JsValue): string
  {
    if v.JStr? then v.s else ""
  }

  /** The row `insertData` describes, as the table stores it: trimmed name and phone, the
      normalised address, `null` for an empty source or message, status `new`. The handler
      builds it only from a payload that passed validation, where every member it reads is
      a string and the two enumerations parse; the fallbacks are never taken there. */
  function NewLead(p: Payload, email: string, ip: Option<string>, id: string, now: int): (l: Lead)
  {
    Lead(
      id := id,
      name := Trim(TextOf(p.name)),
      email := email,
      phone := Trim(TextOf(p.phone)),
      preferredContactTime := ParseContactTime(TextOf(p.preferredContactTime)).GetOr(Anytime),
      interest := ParseInterest(TextOf(p.interest)).GetOr(General),
      heardFrom := if p.heardFrom.JStr? then ParseHeardFrom(p.heardFrom.s) else None,
      message := StoredMessage(p.message),
      status := New,
      sourceIp := ip,
      createdAt := now)
  }

  /** The normalised address, `body.email.trim().toLowerCase()`. */
  function NormalizedEmail(p: Payload): string
  {
    if p.email.JStr? then Lower(Trim(p.email.s)) else ""
  }

  /** `checkRateLimit(supabase, email, ip)` against `rows`: each count is the count query over
      the rows, or none when the query returned no count. */
  function RateFor(rows: seq<Lead>, email: string, ip: Option<string>, svc: Services): RateDecision
  {
    RateLimitDecision(
      if svc.emailCountAnswered then Some(EmailCount(rows, Lower(email), svc.now - EmailWindowMs)) else None,
      ip,
      if ip.Some? && svc.ipCountAnswered then Some(IpCount(rows, ip.value, svc.now - IpWindowMs)) else None)
  }

  /** Every gate before the insert lets the request through. */
  predicate GatesPass(rows: seq<Lead>, req: Request, svc: Services)
  {
    && req.verb == "POST"
    && req.body.Parsed?
    && PayloadOk(req.body.payload)
    && svc.bot.Verified?
    && !RateFor(rows, NormalizedEmail(req.body.payload), GetClientIp(req.forwardedFor, req.realIp), svc).limited
    && !req.body.payload.message.JOther?
  }

  /** A stored name: trimmed, 2 to 100 characters of the name class, no tag, no SQL phrase. */
  predicate IsStoredName(n: string)
  {
    2 <= |n| <= 100 && IsTrimmed(n) && IsNameText(n) && !HasTag(n) && !HasSqlPattern(n)
  }

  /** A stored address: matches the address pattern and has no upper-case letter. */
  predicate IsStoredEmail(e: string)
  {
    IsEmail(e) && IsLowerCased(e)
  }

  /** A stored phone number: trimmed, phone characters only, 7 to 15 digits. */
  predicate IsStoredPhone(ph: string)
  {
    IsPhone(ph) && IsPhoneText(ph) && IsTrimmed(ph)
  }

  /** A stored message: absent, or non-empty, trimmed, at most 1000 characters, no script. */
  predicate IsStoredMessage(m: Option<string>)
  {
    m.Some? ==> m.value != "" && IsTrimmed(m.value) && |m.value| <= 1000 && !HasScript(m.value)
  }

  /** A row whose contents the handler wrote: the status is the admin's to change later. */
  predicate IsStoredRow(l: Lead)
  {
    && IsStoredName(l.name) && IsStoredEmail(l.email) && IsStoredPhone(l.phone)
    && IsStoredMessage(l.message)
    && (l.sourceIp.Some? ==> l.sourceIp.value != "")
  }

  /** A row as the handler writes it, with the status `new`. */
  predicate IsStoredLead(l: Lead)
  {
    IsStoredRow(l) && l.status == New
  }

  /** The `Deno.serve` handler for one request against the rows the table holds: the
      response, and the row written, if any. */
  function Handle(rows: seq<Lead>, req: Request, svc: Services): (o: Outcome)
  {
    var cors := GetCorsHeaders(req.origin);
    if req.verb == "OPTIONS" then Outcome(Response(200, cors, false, NoBody), None)
    else if req.verb != "POST" then Outcome(Response(405, cors, true, Failure("Method not allowed.")), None)
    else match req.body
      case Malformed => Outcome(Response(400, cors, true, Failure("Invalid JSON payload.")), None)
      // `validatePayload(null)` throws, and the outer catch answers.
      case JsonNull => Outcome(Response(500, cors, true, Failure(UnexpectedError)), None)
      case Parsed(p) => HandlePayload(rows, p, GetClientIp(req.forwardedFor, req.realIp), svc, cors)
  }

  /** The handler once the body is parsed: validation first. */
  function HandlePayload(rows: seq<Lead>, p: Payload, ip: Option<string>, svc: Services, cors: CorsHeaders): Outcome
  {
    var errors := PayloadErrors(p);
    if errors != [] then Outcome(Response(422, cors, true, Invalid(errors)), None)
    else HandleValid(rows, p, ip, svc, cors)
  }

  /** The handler once the payload is valid: the bot check, then the rate limit. */
  function HandleValid(rows: seq<Lead>, p: Payload, ip: Option<string>, svc: Services, cors: CorsHeaders): Outcome
  {
    if svc.bot.Rejected? then
      Outcome(Response(403, cors, true,
        Failure(if svc.bot.error != "" then svc.bot.error else "Security verification failed.")), None)
    else
      var rate := RateFor(rows, NormalizedEmail(p), ip, svc);
      if rate.limited then Outcome(Response(429, cors, true, Failure(rate.reason)), None)
      else HandleInsert(p, ip, svc, cors)
  }

  /** The handler once every gate has passed: building the row, then the insert. */
  function HandleInsert(p: Payload, ip: Option<string>, svc: Services, cors: CorsHeaders): Outcome
  {
    // `body.message?.trim()` throws on a value that is not a string.
    if p.message.JOther? then Outcome(Response(500, cors, true, Failure(UnexpectedError)), None)
    else match svc.insert
      case InsertFailed => Outcome(Response(500, cors, true, Failure(SaveFailed)), None)
      case Inserted(id) =>
        Outcome(Response(201, cors, true, Created(id)), Some(NewLead(p, NormalizedEmail(p), ip, id, svc.now)))
  }

  /** Past the gates, the answer is a 500 or a 201, and a row is written exactly with the
      201, which happens exactly when the message can be read and the insert succeeds; the
      row is stamped with the request's time and the insert's identifier. */
  lemma HandleInsertOutcome(p: Payload, ip: Option<string>, svc: Services, cors: CorsHeaders)
    ensures var o := HandleInsert(p, ip, svc, cors);
      && o.response.cors == cors && o.response.json
      && o.response.status in {201, 500}
      && (o.written.Some? <==> o.response.status == 201)
      && (o.written.Some? <==> !p.message.JOther? && svc.insert.Inserted?)
      && (o.written.Some? ==>
            && o.written.value.createdAt == svc.now
            && o.written.value.id == svc.insert.id
            && o.response.body == Created(svc.insert.id))
  {
  }

  /** The row written for a valid payload is normalised and keeps every rule. */
  lemma HandleInsertStored(p: Payload, ip: Option<string>, svc: Services, cors: CorsHeaders)
    requires PayloadOk(p)
    requires ip.Some? ==> ip.value != ""
    ensures var o := HandleInsert(p, ip, svc, cors);
      o.written.Some? ==> IsStoredLead(o.written.value)
  {
    if !p.message.JOther? && svc.insert.Inserted? {
      StoredLeadShape(p, ip, svc.insert.id, svc.now);
    }
  }

  /** Once the payload is valid, the answer is 403 exactly when the bot check fails and 429
      exactly when it passes and the rate limit applies; otherwise the insert decides. A row
      is written only with a 201. */
  lemma HandleValidGates(rows: seq<Lead>, p: Payload, ip: Option<string>, svc: Services, cors: CorsHeaders)
    ensures var o := HandleValid(rows, p, ip, svc, cors);
      && o.response.cors == cors && o.response.json
      && o.response.status in {201, 403, 429, 500}
      && (o.written.Some? <==> o.response.status == 201)
      && (o.response.status == 403 <==> svc.bot.Rejected?)
      && (o.response.status == 429 <==> svc.bot.Verified? && RateFor(rows, NormalizedEmail(p), ip, svc).limited)
      && (svc.bot.Verified? && !RateFor(rows, NormalizedEmail(p), ip, svc).limited ==>
            o == HandleInsert(p, ip, svc, cors))
  {
    HandleInsertOutcome(p, ip, svc, cors);
  }

  /** The gates of a parsed body apply in the order of the source: 422 exactly when it is
      invalid (listing every fault), 403 exactly when it is valid and the bot check fails,
      and 429 exactly when both pass and the rate limit applies; once all three pass, the
      insert decides. */
  lemma HandlePayloadGates(rows: seq<Lead>, p: Payload, ip: Option<string>, svc: Services, cors: CorsHeaders)
    ensures var o := HandlePayload(rows, p, ip, svc, cors);
      && (o.response.status == 422 <==> !PayloadOk(p))
      && (o.response.status == 422 ==> o.response.body == Invalid(PayloadErrors(p)) && o.written.None?)
      && (o.response.status == 403 <==> PayloadOk(p) && svc.bot.Rejected?)
      && (o.response.status == 429 <==>
            PayloadOk(p) && svc.bot.Verified? && RateFor(rows, NormalizedEmail(p), ip, svc).limited)
      && (PayloadOk(p) && svc.bot.Verified? && !RateFor(rows, NormalizedEmail(p), ip, svc).limited ==>
            o == HandleInsert(p, ip, svc, cors))
  {
    PayloadErrorsEmpty(p);
    if PayloadErrors(p) == [] {
      HandlePayloadPasses(rows, p, ip, svc, cors);
      HandleValidGates(rows, p, ip, svc, cors);
    } else {
      HandlePayloadFails(rows, p, ip, svc, cors);
    }
  }

  lemma HandlePayloadPasses(rows: seq<Lead>, p: Payload, ip: Option<string>, svc: Services, cors: CorsHeaders)
    requires PayloadErrors(p) == []
    ensures HandlePayload(rows, p, ip, svc, cors) == HandleValid(rows, p, ip, svc, cors)
  {
  }

  lemma HandlePayloadFails(rows: seq<Lead>, p: Payload, ip: Option<string>, svc: Services, cors: CorsHeaders)
    requires PayloadErrors(p) != []
    ensures HandlePayload(rows, p, ip, svc, cors) == Outcome(Response(422, cors, true, Invalid(PayloadErrors(p))), None)
  {
  }

  /** Once the body is parsed, every answer is JSON with the given headers and one of the
      handler's status codes, and a row is written exactly with a 201. */
  lemma HandlePayloadResponses(rows: seq<Lead>, p: Payload, ip: Option<string>, svc: Services, cors: CorsHeaders)
    ensures var o := HandlePayload(rows, p, ip, svc, cors);
      && o.response.cors == cors
      && o.response.status in {201, 403, 422, 429, 500}
      && o.response.json
      && (o.written.Some? <==> o.response.status == 201)
  {
    if PayloadErrors(p) == [] {
      HandlePayloadPasses(rows, p, ip, svc, cors);
      HandleValidGates(rows, p, ip, svc, cors);
    } else {
      HandlePayloadFails(rows, p, ip, svc, cors);
    }
  }

  /** A parsed POST body is handled by `HandlePayload`. */
  lemma HandleParsed(rows: seq<Lead>, req: Request, svc: Services)
    requires req.verb == "POST" && req.body.Parsed?
    ensures Handle(rows, req, svc)
         == HandlePayload(rows, req.body.payload, GetClientIp(req.forwardedFor, req.realIp), svc, GetCorsHeaders(req.origin))
  {
  }

  /** Every response carries the CORS headers for the request's origin, has one of the
      handler's status codes, answers the preflight with 200 and no JSON, and writes a row
      exactly when it is a 201. */
  lemma HandleResponses(rows: seq<Lead>, req: Request, svc: Services)
    ensures var o := Handle(rows, req, svc);
      && o.response.cors == GetCorsHeaders(req.origin)
      && o.response.status in {200, 201, 400, 403, 405, 422, 429, 500}
      && (o.response.status == 200 <==> req.verb == "OPTIONS")
      && (o.response.json <==> req.verb != "OPTIONS")
      && (o.written.Some? <==> o.response.status == 201)
  {
    if req.verb == "POST" && req.body.Parsed? {
      HandleParsed(rows, req, svc);
      HandlePayloadResponses(rows, req.body.payload, GetClientIp(req.forwardedFor, req.realIp), svc, GetCorsHeaders(req.origin));
    }
  }

  /** For a parsed POST body the gates apply in the order of the source: 422 exactly when it
      is invalid (listing every fault), 403 exactly when it is valid and the bot check fails,
      and 429 exactly when both pass and the rate limit applies. */
  lemma HandleGateOrder(rows: seq<Lead>, req: Request, svc: Services)
    requires req.verb == "POST" && req.body.Parsed?
    ensures var p := req.body.payload;
      var o := Handle(rows, req, svc);
      && (o.response.status == 422 <==> !PayloadOk(p))
      && (o.response.status == 422 ==> o.response.body == Invalid(PayloadErrors(p)))
      && (o.response.status == 403 <==> PayloadOk(p) && svc.bot.Rejected?)
      && (o.response.status == 429 <==>
            PayloadOk(p) && svc.bot.Verified?
            && RateFor(rows, NormalizedEmail(p), GetClientIp(req.forwardedFor, req.realIp), svc).limited)
  {
    HandleParsed(rows, req, svc);
    HandlePayloadGates(rows, req.body.payload, GetClientIp(req.forwardedFor, req.realIp), svc, GetCorsHeaders(req.origin));
  }

  /** A row is written exactly when every gate passes and the insert succeeds, and the row
      written is a stored lead stamped with the request's time and the insert's identifier. */
  lemma HandleWrites(rows: seq<Lead>, req: Request, svc: Services)
    ensures var o := Handle(rows, req, svc);
      && (o.written.Some? <==> GatesPass(rows, req, svc) && svc.insert.Inserted?)
      && (o.written.Some? ==>
            && IsStoredLead(o.written.value)
            && o.written.value.createdAt == svc.now
            && o.written.value.id == svc.insert.id
            && o.response.body == Created(svc.insert.id))
  {
    if req.verb == "POST" && req.body.Parsed? {
      var p := req.body.payload;
      var ip := GetClientIp(req.forwardedFor, req.realIp);
      var cors := GetCorsHeaders(req.origin);
      HandleParsed(rows, req, svc);
      HandlePayloadGates(rows, p, ip, svc, cors);
      HandlePayloadResponses(rows, p, ip, svc, cors);
      HandleInsertOutcome(p, ip, svc, cors);
      if PayloadOk(p) {
        HandleInsertStored(p, ip, svc, cors);
      }
    }
  }

  /** A request that passes every gate reaches the insert. */
  lemma HandleReachesInsert(rows: seq<Lead>, req: Request, svc: Services)
    requires GatesPass(rows, req, svc)
    ensures Handle(rows, req, svc)
         == HandleInsert(req.body.payload, GetClientIp(req.forwardedFor, req.realIp), svc, GetCorsHeaders(req.origin))
  {
    var p := req.body.payload;
    var ip := GetClientIp(req.forwardedFor, req.realIp);
    var cors := GetCorsHeaders(req.origin);
    HandleParsed(rows, req, svc);
    PayloadErrorsEmpty(p);
    HandlePayloadPasses(rows, p, ip, svc, cors);
    assert HandleValid(rows, p, ip, svc, cors) == HandleInsert(p, ip, svc, cors);
  }

  /** The enumerations of the row are the ones the payload names, and the source is stored
      exactly when one was given. */
  lemma NewLeadChoices(p: Payload, ip: Option<string>, id: string, now: int)
    requires FieldOk(p, ContactTimeField) && FieldOk(p, InterestField) && FieldOk(p, HeardFromField)
    ensures var l := NewLead(p, NormalizedEmail(p), ip, id, now);
      && ContactTimeName(l.preferredContactTime) == p.preferredContactTime.s
      && InterestName(l.interest) == p.interest.s
      && (l.heardFrom.Some? <==> Truthy(p.heardFrom))
      && (l.heardFrom.Some? ==> p.heardFrom.JStr? && HeardFromName(l.heardFrom.value) == p.heardFrom.s)
  {
  }

  /** The row written is the request's own enquiry: written exactly when every gate passes
      and the insert succeeds, and then built from the request's payload, the client address
      of its headers, the insert's identifier and the request's time. */
  lemma WrittenRow(rows: seq<Lead>, req: Request, svc: Services)
    ensures Handle(rows, req, svc).written
         == if GatesPass(rows, req, svc) && svc.insert.Inserted? then
              Some(NewLead(req.body.payload, NormalizedEmail(req.body.payload),
                           GetClientIp(req.forwardedFor, req.realIp), svc.insert.id, svc.now))
            else None
  {
    HandleWrites(rows, req, svc);
    if GatesPass(rows, req, svc) {
      HandleReachesInsert(rows, req, svc);
    }
  }

  /** Field by field, the row written holds the normalised address, the trimmed name and
      phone, the contact time, interest and source the payload names, the stored message,
      the client address of the request's headers, and the status `new`. */
  lemma WrittenRowFields(rows: seq<Lead>, req: Request, svc: Services)
    requires Handle(rows, req, svc).written.Some?
    ensures req.body.Parsed?
    ensures var p := req.body.payload;
      var l := Handle(rows, req, svc).written.value;
      && p.name.JStr? && l.name == Trim(p.name.s)
      && l.email == NormalizedEmail(p)
      && p.phone.JStr? && l.phone == Trim(p.phone.s)
      && p.preferredContactTime.JStr? && ContactTimeName(l.preferredContactTime) == p.preferredContactTime.s
      && p.interest.JStr? && InterestName(l.interest) == p.interest.s
      && (l.heardFrom.Some? <==> Truthy(p.heardFrom))
      && (l.heardFrom.Some? ==> p.heardFrom.JStr? && HeardFromName(l.heardFrom.value) == p.heardFrom.s)
      && l.message == StoredMessage(p.message)
      && l.sourceIp == GetClientIp(req.forwardedFor, req.realIp)
      && l.status == New
  {
    WrittenRow(rows, req, svc);
    var p := req.body.payload;
    assert FieldOk(p, NameField) && FieldOk(p, PhoneField);
    assert FieldOk(p, ContactTimeField) && FieldOk(p, InterestField) && FieldOk(p, HeardFromField);
    NewLeadChoices(p, GetClientIp(req.forwardedFor, req.realIp), svc.insert.id, svc.now);
  }

  /** A request that passes every gate and is inserted (the 201 of `WrittenRow`) adds one to
      its address's count in every window that holds the request's time, and nothing to the
      count of any other address. */
  lemma EnquiryCounted(rows: seq<Lead>, req: Request, svc: Services, email: string, since: int)
    requires GatesPass(rows, req, svc) && svc.insert.Inserted?
    requires since <= svc.now
    ensures var after := rows + Written(Handle(rows, req, svc));
      EmailCount(after, email, since)
        == EmailCount(rows, email, since) + (if email == NormalizedEmail(req.body.payload) then 1 else 0)
  {
    WrittenRow(rows, req, svc);
    var l := Handle(rows, req, svc).written.value;
    CountAppend(rows, l, SameEmailSince(email, since));
  }

  /** Once three enquiries from an address lie in the last 24 hours, a fourth valid, verified
      enquiry from it is answered 429 with the e-mail reason and writes nothing, whatever
      case or surrounding space the address is typed with. */
  lemma FourthEnquiryLimited(rows: seq<Lead>, req: Request, svc: Services)
    requires req.verb == "POST" && req.body.Parsed? && PayloadOk(req.body.payload)
    requires svc.bot.Verified? && svc.emailCountAnswered
    requires EmailCount(rows, NormalizedEmail(req.body.payload), svc.now - EmailWindowMs) >= EmailLimitMax
    ensures Handle(rows, req, svc).response.status == 429
    ensures Handle(rows, req, svc).response.body == Failure(EmailLimitReason)
    ensures Handle(rows, req, svc).written.None?
  {
    var p := req.body.payload;
    var ip := GetClientIp(req.forwardedFor, req.realIp);
    var cors := GetCorsHeaders(req.origin);
    var e := NormalizedEmail(p);
    assert Lower(e) == e by {
      assert forall i :: 0 <= i < |e| ==> !IsUpper(e[i]);
    }
    assert RateFor(rows, e, ip, svc) == RateDecision(true, EmailLimitReason);
    HandleParsed(rows, req, svc);
    PayloadErrorsEmpty(p);
    HandlePayloadPasses(rows, p, ip, svc, cors);
  }

  lemma StoredName(v: JsValue)
    requires NameOk(v)
    ensures IsStoredName(Trim(v.s))
  {
  }

  lemma StoredEmail(v: JsValue)
    requires EmailOk(v)
    ensures IsStoredEmail(Lower(Trim(v.s)))
  {
    EmailLowerCased(Trim(v.s));
  }

  lemma StoredPhone(v: JsValue)
    requires PhoneOk(v)
    ensures IsStoredPhone(Trim(v.s))
  {
  }

  /** The message column: `message?.trim() || null`. */
  function StoredMessage(v: JsValue): Option<string>
  {
    if v.JStr? && Trim(v.s) != "" then Some(Trim(v.s)) else None
  }

  lemma StoredMessageOk(v: JsValue)
    requires MessageOk(v)
    ensures IsStoredMessage(StoredMessage(v))
  {
    if v.JStr? && Trim(v.s) != "" {
      var m := v.s;
      ContainsIgnoreCaseTrim(m, "<script");
      ContainsIgnoreCaseTrim(m, "javascript:");
      ContainsIgnoreCaseTrim(m, "onerror=");
      ContainsIgnoreCaseTrim(m, "onload=");
    }
  }

  /** The row built from a valid payload is normalised and keeps every rule the payload kept. */
  lemma StoredLeadShape(p: Payload, ip: Option<string>, id: string, now: int)
    requires PayloadOk(p) && !p.message.JOther?
    requires ip.Some? ==> ip.value != ""
    ensures IsStoredLead(NewLead(p, NormalizedEmail(p), ip, id, now))
  {
    assert FieldOk(p, NameField) && FieldOk(p, EmailField) && FieldOk(p, PhoneField);
    assert FieldOk(p, MessageField);
    StoredName(p.name);
    StoredEmail(p.email);
    StoredPhone(p.phone);
    StoredMessageOk(p.message);
  }

  /** The written rows of one request: none, or the one row of a successful insert. */
  function Written(o: Outcome): (rows: seq<Lead>)
    ensures |rows| <= 1
    ensures |rows| == 1 <==> o.written.Some?
  {
    if o.written.Some? then [o.written.value] else []
  }

  /** The `leads` table, append-only as far as this endpoint is concerned. */
  class LeadsTable {
    var rows: seq<Lead>

    /** Every row was written by the handler, whatever its status has become since. */
    ghost predicate Valid()
      reads this
    {
      forall i :: 0 <= i < |rows| ==> IsStoredRow(rows[i])
    }

    constructor ()
      ensures rows == [] && Valid()
    {
      rows := [];
    }

    /** `checkRateLimit`: the e-mail count first; the address count only for an address
        and only when the e-mail window did not already limit. */
    method CheckRateLimit(email: string, ip: Option<string>, svc: Services)
      returns (limited: bool, reason: string)
      ensures RateDecision(limited, reason) == RateFor(rows, email, ip, svc)
    {
      var emailWindowStart := svc.now - EmailWindowMs;
      var emailCount := if svc.emailCountAnswered then Some(EmailCount(rows, Lower(email), emailWindowStart)) else None;
      if OrZero(emailCount) >= EmailLimitMax {
        return true, EmailLimitReason;
      }
      if ip.Some? && ip.value != "" {
        var ipWindowStart := svc.now - IpWindowMs;
        var ipCount := if svc.ipCountAnswered then Some(IpCount(rows, ip.value, ipWindowStart)) else None;
        if OrZero(ipCount) >= IpLimitMax {
          return true, IpLimitReason;
        }
      }
      return false, "";
    }

    /** `supabase.from("leads").insert([row])`: appends the row. */
    method Insert(l: Lead)
      modifies this
      ensures old(Valid()) && IsStoredRow(l) ==> Valid()
      ensures rows == old(rows) + [l]
    {
      rows := rows + [l];
    }

    /** The handler. It answers as `Handle` does and appends the row `Handle` writes, if any. */
    method Serve(req: Request, svc: Services) returns (resp: Response)
      modifies this
      ensures old(Valid()) ==> Valid()
      ensures resp == Handle(old(rows), req, svc).response
      ensures rows == old(rows) + Written(Handle(old(rows), req, svc))
    {
      var corsHeaders := GetCorsHeaders(req.origin);
      if req.verb == "OPTIONS" {
        return Response(200, corsHeaders, false, NoBody);
      }
      if req.verb != "POST" {
        return Response(405, corsHeaders, true, Failure("Method not allowed."));
      }
      if req.body.Malformed? {
        return Response(400, corsHeaders, true, Failure("Invalid JSON payload."));
      }
      if req.body.JsonNull? {
        return Response(500, corsHeaders, true, Failure(UnexpectedError));
      }
      var body := req.body.payload;
      var validationErrors := ValidatePayload(body);
      if |validationErrors| > 0 {
        return Response(422, corsHeaders, true, Invalid(validationErrors));
      }
      PayloadErrorsEmpty(body);
      var clientIp := GetClientIp(req.forwardedFor, req.realIp);
      var normalizedEmail := NormalizedEmail(body);
      if svc.bot.Rejected? {
        var error := if svc.bot.error != "" then svc.bot.error else "Security verification failed.";
        return Response(403, corsHeaders, true, Failure(error));
      }
      var limited, reason := CheckRateLimit(normalizedEmail, clientIp, svc);
      if limited {
        return Response(429, corsHeaders, true, Failure(reason));
      }
      if body.message.JOther? {
        return Response(500, corsHeaders, true, Failure(UnexpectedError));
      }
      if svc.insert.InsertFailed? {
        return Response(500, corsHeaders, true, Failure(SaveFailed));
      }
      var lead := NewLead(body, normalizedEmail, clientIp, svc.insert.id, svc.now);
      StoredLeadShape(body, clientIp, svc.insert.id, svc.now);
      Insert(lead);
      return Response(201, corsHeaders, true, Created(lead.id));
    }

    /** The admin's `update({ status }).eq("id", id)`: every row with that id takes the new
        status, and the rows stay ones the handler wrote. */
    method UpdateStatus(id: string, status: LeadStatus)
      modifies this
      ensures old(Valid()) ==> Valid()
      ensures rows == LeadsManager.SetStatus(old(rows), id, status)
    {
      LeadsManager.SetStatusChangesOnlyThatLead(rows, id, status);
      rows := LeadsManager.SetStatus(rows, id, status);
    }
  }
}
