/** The public enquiry form (`src/components/LeadForm.tsx`): its own field checks, the body it
    posts to the lead-intake endpoint, and the component state that typing, submitting and
    the one-second cooldown timer update. The endpoint's answer is an input of a submission. */
module LeadForm {
  import opened Types
  import opened Text
  import opened Patterns
  import opened SubmitLead

  /** `LeadFormData`: every input holds a string, `''` when untouched. */
  datatype FormData = FormData(
    name: string, email: string, phone: string, preferredContactTime: string,
    interest: string, heardFrom: string, message: string)
  {
    /** `{ ...prev, [name]: value }` */
    function With(f: FormField, v: string): (d: FormData)
      ensures d.Get(f) == v
      ensures forall g: FormField :: g != f ==> d.Get(g) == Get(g)
    {
      match f
      case FName => this.(name := v)
      case FEmail => this.(email := v)
      case FPhone => this.(phone := v)
      case FContactTime => this.(preferredContactTime := v)
      case FInterest => this.(interest := v)
      case FHeardFrom => this.(heardFrom := v)
      case FMessage => this.(message := v)
    }

    /** The input named `f`. */
    function Get(f: FormField): string
    {
      match f
      case FName => name
      case FEmail => email
      case FPhone => phone
      case FContactTime => preferredContactTime
      case FInterest => interest
      case FHeardFrom => heardFrom
      case FMessage => message
    }
  }

  /** The `name` attributes of the form's inputs, the keys of `FieldErrors`. */
  datatype FormField = FName | FEmail | FPhone | FContactTime | FInterest | FHeardFrom | FMessage

  const EmptyForm: FormData := FormData("", "", "", "", "", "", "")

  /** `FieldErrors`: a message for some of the fields. */
  type FieldErrors = map<FormField, string>

  /** `validateEmail`: the same expression as the endpoint's `EMAIL_REGEX`. */
  predicate ValidEmail(email: string)
  {
    IsEmail(email)
  }

  /** `validatePhone`: the same separator class and digit run as the endpoint. */
  predicate ValidPhone(phone: string)
  {
    IsPhone(phone)
  }

  /** The name chain of `validateForm`. */
  function NameError(name: string): Option<string>
  {
    var t := Trim(name);
    if t == [] then Some("Name is required.")
    else if |t| < 2 then Some("Name must be at least 2 characters.")
    else if |t| > 100 then Some("Name must not exceed 100 characters.")
    else None
  }

  /** The email chain of `validateForm`. */
  function EmailError(email: string): Option<string>
  {
    if Trim(email) == [] then Some("Email is required.")
    else if !ValidEmail(Trim(email)) then Some("Please enter a valid email address.")
    else None
  }

  /** The phone chain of `validateForm`. */
  function PhoneError(phone: string): Option<string>
  {
    if Trim(phone) == [] then Some("Phone number is required.")
    else if !ValidPhone(Trim(phone)) then Some("Please enter a valid phone number (7-15 digits).")
    else None
  }

  /** The check `validateForm` applies to one field; `heard_from` has none. */
  function FieldError(d: FormData, f: FormField): Option<string>
  {
    match f
    case FName => NameError(d.name)
    case FEmail => EmailError(d.email)
    case FPhone => PhoneError(d.phone)
    case FContactTime => ContactTimeError(d.preferredContactTime)
    case FInterest => InterestError(d.interest)
    case FHeardFrom => None
    case FMessage => MessageError(d.message)
  }

  /** The contact-time check of `validateForm`: only required. */
  function ContactTimeError(v: string): Option<string>
  {
    if v == "" then Some("Please select a preferred contact time.") else None
  }

  /** The interest check of `validateForm`: only required. */
  function InterestError(v: string): Option<string>
  {
    if v == "" then Some("Please select your area of interest.") else None
  }

  /** The message check of `validateForm`, on the untrimmed text. */
  function MessageError(m: string): Option<string>
  {
    if m != "" && |m| > 1000 then Some("Message must not exceed 1000 characters.") else None
  }

  /** `errors.x = ...` when a field's check found a fault. */
  function SetError(errors: FieldErrors, f: FormField, check: Option<string>): FieldErrors
  {
    if check.Some? then errors[f := check.value] else errors
  }

  /** `validateForm`: the fields are checked in turn, each setting its own key. */
  function ValidateForm(d: FormData): FieldErrors
  {
    Collect(NameError(d.name), EmailError(d.email), PhoneError(d.phone),
            ContactTimeError(d.preferredContactTime), InterestError(d.interest), MessageError(d.message))
  }

  /** Sets the key of every field whose check failed, in the order of the form. */
  function Collect(name: Option<string>, email: Option<string>, phone: Option<string>,
                   contactTime: Option<string>, interest: Option<string>, message: Option<string>): FieldErrors
  {
    var e := SetError(map[], FName, name);
    var e := SetError(e, FEmail, email);
    var e := SetError(e, FPhone, phone);
    var e := SetError(e, FContactTime, contactTime);
    var e := SetError(e, FInterest, interest);
    SetError(e, FMessage, message)
  }

  /** What `Collect` keys, field by field. */
  lemma CollectKeys(name: Option<string>, email: Option<string>, phone: Option<string>,
                    contactTime: Option<string>, interest: Option<string>, message: Option<string>)
    ensures var e := Collect(name, email, phone, contactTime, interest, message);
      && (FName in e <==> name.Some?) && (FName in e ==> e[FName] == name.value)
      && (FEmail in e <==> email.Some?) && (FEmail in e ==> e[FEmail] == email.value)
      && (FPhone in e <==> phone.Some?) && (FPhone in e ==> e[FPhone] == phone.value)
      && (FContactTime in e <==> contactTime.Some?) && (FContactTime in e ==> e[FContactTime] == contactTime.value)
      && (FInterest in e <==> interest.Some?) && (FInterest in e ==> e[FInterest] == interest.value)
      && (FMessage in e <==> message.Some?) && (FMessage in e ==> e[FMessage] == message.value)
      && FHeardFrom !in e
  {
  }

  /** A field has an entry exactly when its check fails, and the entry is that check's
      message: one message per field, every failing field reported. */
  lemma ValidateFormByField(d: FormData, f: FormField)
    ensures f in ValidateForm(d) <==> FieldError(d, f).Some?
    ensures f in ValidateForm(d) ==> ValidateForm(d)[f] == FieldError(d, f).value
  {
    CollectKeys(NameError(d.name), EmailError(d.email), PhoneError(d.phone),
                ContactTimeError(d.preferredContactTime), InterestError(d.interest), MessageError(d.message));
  }

  /** The source field is optional: it never has an entry. */
  lemma HeardFromNeverReported(d: FormData)
    ensures FHeardFrom !in ValidateForm(d)
  {
    CollectKeys(NameError(d.name), EmailError(d.email), PhoneError(d.phone),
                ContactTimeError(d.preferredContactTime), InterestError(d.interest), MessageError(d.message));
  }

  /** The contact time and the interest are only required, not checked against the option
      lists: any non-empty value passes. */
  lemma SelectsOnlyRequired(d: FormData)
    ensures FContactTime in ValidateForm(d) <==> d.preferredContactTime == ""
    ensures FInterest in ValidateForm(d) <==> d.interest == ""
  {
    CollectKeys(NameError(d.name), EmailError(d.email), PhoneError(d.phone),
                ContactTimeError(d.preferredContactTime), InterestError(d.interest), MessageError(d.message));
  }

  /** `Object.keys(errors).length > 0` */
  predicate HasErrors(e: FieldErrors)
  {
    e != map[]
  }

  /** The form is submitted exactly when every field passes its check. */
  lemma ValidateFormEmpty(d: FormData)
    ensures !HasErrors(ValidateForm(d)) <==> forall f: FormField :: FieldError(d, f).None?
  {
    forall f: FormField
      ensures f in ValidateForm(d) <==> FieldError(d, f).Some?
    {
      ValidateFormByField(d, f);
    }
    if !HasErrors(ValidateForm(d)) {
      assert ValidateForm(d) == map[];
    } else {
      var f :| f in ValidateForm(d);
      assert FieldError(d, f).Some?;
    }
  }

  /** The JSON body `handleSubmit` posts: trimmed name and phone, trimmed and lower-cased
      address, the two selects as they are, `null` for an empty source and for a message that
      trims to nothing, and no bot-check token. */
  function FormPayload(d: FormData): (p: Payload)
    ensures p.turnstileToken == Missing
  {
    Payload(
      name := JStr(Trim(d.name)),
      email := JStr(Lower(Trim(d.email))),
      phone := JStr(Trim(d.phone)),
      preferredContactTime := JStr(d.preferredContactTime),
      interest := JStr(d.interest),
      heardFrom := if d.heardFrom == "" then Missing else JStr(d.heardFrom),
      message := if Trim(d.message) == "" then Missing else JStr(Trim(d.message)),
      turnstileToken := Missing)
  }

  /** An address the form accepts is one the endpoint accepts, after the form's own
      trimming and lower-casing. */
  lemma FormEmailAccepted(d: FormData)
    requires EmailError(d.email) == None
    ensures EmailOk(FormPayload(d).email)
  {
    SentEmailAccepted(d.email);
  }

  lemma SentEmailAccepted(email: string)
    requires EmailError(email) == None
    ensures EmailOk(JStr(Lower(Trim(email))))
  {
    var t := Trim(email);
    var u := Lower(t);
    EmailLowerCased(t);
    EmailShape(u);
    assert Trim(u) == u;
  }

  /** A phone number the form accepts is one the endpoint accepts: same digit rule, and the
      digit rule already excludes tags and foreign characters. */
  lemma FormPhoneAccepted(d: FormData)
    requires PhoneError(d.phone) == None
    ensures PhoneOk(FormPayload(d).phone)
  {
    TrimIdempotent(d.phone);
    PhoneShape(Trim(d.phone));
  }

  /** The endpoint's name rule is the stricter one: a name it accepts is accepted here. */
  lemma ServerNameAcceptedByForm(d: FormData)
    requires NameOk(FormPayload(d).name)
    ensures NameError(d.name) == None
  {
    TrimIdempotent(d.name);
  }

  /** A message the form accepts is within the endpoint's length bound once trimmed. */
  lemma FormMessageWithinBound(d: FormData)
    requires MessageError(d.message) == None
    ensures FormPayload(d).message.JStr? ==> |FormPayload(d).message.s| <= 1000
  {
  }

  /** A POST whose body has no bot-check token is answered with 422, whatever the other
      fields hold, lists the missing token among the faults and writes nothing. */
  lemma MissingTokenRejected(rows: seq<Lead>, req: Request, svc: Services)
    requires req.verb == "POST" && req.body.Parsed? && req.body.payload.turnstileToken == Missing
    ensures var o := Handle(rows, req, svc);
      && o.response.status == 422
      && o.response.body == Invalid(PayloadErrors(req.body.payload))
      && o.written.None?
      && |ErrorsFor(PayloadErrors(req.body.payload), TokenField)| == 1
  {
    assert !FieldOk(req.body.payload, TokenField);
    HandleGateOrder(rows, req, svc);
    HandleResponses(rows, req, svc);
    EachFieldReportedOnce(req.body.payload, TokenField);
  }

  /** The form sends no bot-check token, so the endpoint answers every POST of the form's
      body with 422, however the fields were filled in. */
  lemma FormSubmissionRejected(rows: seq<Lead>, req: Request, svc: Services, d: FormData)
    requires req.verb == "POST" && req.body == Parsed(FormPayload(d))
    ensures Handle(rows, req, svc).response.status == 422
    ensures Handle(rows, req, svc).written.None?
  {
    MissingTokenRejected(rows, req, svc);
  }

  /** `submitStatus` */
  datatype SubmitStatus = Idle | Loading | Success | Failed

  /** How the `fetch` of a submission ended: an answer with its `ok` flag and the `error`
      member of its JSON (absent as `None`), or a thrown value, which carries a message when
      it is an `Error`. */
  datatype FetchOutcome = Answered(ok: bool, error: Option<string>) | Threw(message: Option<string>)

  const CooldownAfterSubmit: int := 60
  const SubmitFailedMessage: string := "Submission failed. Please try again."
  const UnexpectedFailureMessage: string := "Something went wrong. Please try again."

  /** One step of the cooldown countdown: down by one, and to zero from one or below. */
  function TickDown(c: int): (r: int)
    ensures r >= 0
    ensures c >= 1 ==> r == c - 1
  {
    if c <= 1 then 0 else c - 1
  }

  /** The component's state as a value. */
  datatype FormView = FormView(
    data: FormData, fieldErrors: FieldErrors, status: SubmitStatus, errorMessage: string,
    cooldownSeconds: int, timerRunning: bool)

  /** The state when the form is first shown. */
  const InitialView: FormView := FormView(EmptyForm, map[], Idle, "", 0, false)

  /** One firing of the cooldown interval: the countdown goes down by one, and at one or
      below it becomes zero and the interval is cleared. */
  function TickView(v: FormView): FormView
  {
    v.(cooldownSeconds := TickDown(v.cooldownSeconds), timerRunning := v.cooldownSeconds > 1)
  }

  /** `n` seconds of the interval, which fires only while it is scheduled. */
  function Ticks(v: FormView, n: nat): FormView
    decreases n
  {
    if n == 0 || !v.timerRunning then v else Ticks(TickView(v), n - 1)
  }

  /** A running countdown from `c` shows `c - n` after `n` seconds and stops at zero after
      `c` seconds, the interval being cleared then; nothing else changes. */
  lemma {:induction false} TicksCountDown(v: FormView, n: nat)
    requires v.timerRunning && v.cooldownSeconds >= 1
    ensures var w := Ticks(v, n);
      && w.cooldownSeconds == (if n >= v.cooldownSeconds then 0 else v.cooldownSeconds - n)
      && (w.timerRunning <==> n < v.cooldownSeconds)
      && w.(cooldownSeconds := v.cooldownSeconds, timerRunning := true) == v
    decreases n
  {
    if n > 0 && v.cooldownSeconds > 1 {
      TicksCountDown(TickView(v), n - 1);
    }
  }

  /** The state once a posted submission has been answered: an accepted answer clears the
      form and its errors and starts the cooldown; a refused answer shows the endpoint's
      `error`, or a fixed message when it has none; a thrown error shows its message, or a
      fixed one when the thrown value is not an `Error`. */
  function SettleView(v: FormView, outcome: FetchOutcome): FormView
  {
    match outcome
    case Answered(true, _) =>
      v.(status := Success, data := EmptyForm, fieldErrors := map[],
         cooldownSeconds := CooldownAfterSubmit, timerRunning := true)
    case Answered(false, error) =>
      v.(status := Failed,
         errorMessage := if error.Some? && error.value != "" then error.value else SubmitFailedMessage)
    case Threw(message) =>
      v.(status := Failed, errorMessage := message.GetOr(UnexpectedFailureMessage))
  }

  /** The new state of a submission and the body it posts, if any. */
  datatype SubmitResult = SubmitResult(view: FormView, sent: Option<Payload>)

  /** `handleSubmit`: nothing happens during a cooldown; a form with faults has them shown,
      replacing the old ones, and nothing is sent; otherwise the body is posted, the error
      message cleared, and the answer settles the state. */
  function Submit(v: FormView, outcome: FetchOutcome): SubmitResult
  {
    if v.cooldownSeconds > 0 then SubmitResult(v, None)
    else
      var errors := ValidateForm(v.data);
      if HasErrors(errors) then SubmitResult(v.(fieldErrors := errors), None)
      else SubmitResult(SettleView(v.(status := Loading, errorMessage := ""), outcome), Some(FormPayload(v.data)))
  }

  /** A submission posts exactly when there is no cooldown and every field passes its check,
      and what it posts is the form's body, without a bot-check token. */
  lemma SubmitSends(v: FormView, outcome: FetchOutcome)
    ensures var r := Submit(v, outcome);
      && (r.sent.Some? <==> v.cooldownSeconds <= 0 && forall f: FormField :: FieldError(v.data, f).None?)
      && (r.sent.Some? ==> r.sent.value == FormPayload(v.data) && r.sent.value.turnstileToken == Missing)
  {
    ValidateFormEmpty(v.data);
  }

  /** A submission that posts nothing keeps the form's contents, its status and its message;
      outside a cooldown it shows exactly the faults of the form. */
  lemma SubmitBlocked(v: FormView, outcome: FetchOutcome)
    requires Submit(v, outcome).sent.None?
    ensures var w := Submit(v, outcome).view;
      && w.data == v.data && w.status == v.status && w.errorMessage == v.errorMessage
      && w.cooldownSeconds == v.cooldownSeconds && w.timerRunning == v.timerRunning
      && (v.cooldownSeconds <= 0 ==> w.fieldErrors == ValidateForm(v.data) && HasErrors(w.fieldErrors))
      && (v.cooldownSeconds > 0 ==> w == v)
  {
  }

  /** A posted submission ends in success or failure, never loading; only success clears the
      form and starts the cooldown, and a failure keeps what was typed. */
  lemma SubmitSettles(v: FormView, outcome: FetchOutcome)
    requires Submit(v, outcome).sent.Some?
    ensures var w := Submit(v, outcome).view;
      && (w.status == Success <==> (outcome.Answered? && outcome.ok))
      && (w.status == Failed <==> !(outcome.Answered? && outcome.ok))
      && (w.status == Success ==>
            w.data == EmptyForm && w.fieldErrors == map[] && w.cooldownSeconds == CooldownAfterSubmit
            && w.timerRunning)
      && (w.status == Failed ==> w.data == v.data && w.cooldownSeconds == v.cooldownSeconds)
      && (outcome.Answered? && !outcome.ok ==> w.errorMessage != "")
  {
  }

  /** The emptied form fails the required-field checks, so submitting it again posts
      nothing: five messages, one for each required field. */
  lemma EmptyFormInvalid()
    ensures ValidateForm(EmptyForm).Keys == {FName, FEmail, FPhone, FContactTime, FInterest}
  {
    var d := EmptyForm;
    CollectKeys(NameError(d.name), EmailError(d.email), PhoneError(d.phone),
                ContactTimeError(d.preferredContactTime), InterestError(d.interest), MessageError(d.message));
    forall f: FormField
      ensures f in ValidateForm(d) <==> f in {FName, FEmail, FPhone, FContactTime, FInterest}
    {
    }
  }

  /** After a successful submission nothing can be posted for a minute: for the first 59
      seconds of the countdown any further submission is ignored, whatever the answer, and
      after 60 seconds the countdown is over and its interval cleared. */
  lemma CooldownAfterSuccess(v: FormView, outcome: FetchOutcome, n: nat, next: FetchOutcome)
    requires Submit(v, outcome).sent.Some? && (outcome.Answered? && outcome.ok)
    ensures var w := Ticks(Submit(v, outcome).view, n);
      && (n < CooldownAfterSubmit ==> Submit(w, next) == SubmitResult(w, None))
      && (n >= CooldownAfterSubmit ==> w.cooldownSeconds == 0 && !w.timerRunning)
  {
    SubmitSettles(v, outcome);
    TicksCountDown(Submit(v, outcome).view, n);
  }

  /** The component's state. */
  class LeadFormState {
    var data: FormData
    var fieldErrors: FieldErrors
    var status: SubmitStatus
    var errorMessage: string
    var cooldownSeconds: int
    /** Whether the cooldown interval is scheduled. */
    var timerRunning: bool

    /** All of the state at once. */
    ghost function View(): FormView
      reads this
    {
      FormView(data, fieldErrors, status, errorMessage, cooldownSeconds, timerRunning)
    }

    /** The state before any interaction. */
    constructor ()
      ensures View() == InitialView
    {
      data := EmptyForm;
      fieldErrors := map[];
      status := Idle;
      errorMessage := "";
      cooldownSeconds := 0;
      timerRunning := false;
    }

    /** `startCooldown`: sets the countdown and schedules the interval. */
    method StartCooldown(seconds: int)
      modifies this
      ensures View() == old(View()).(cooldownSeconds := seconds, timerRunning := true)
    {
      cooldownSeconds := seconds;
      timerRunning := true;
    }

    /** The interval's callback. */
    method Tick()
      requires timerRunning
      modifies this
      ensures View() == TickView(old(View()))
    {
      if cooldownSeconds <= 1 {
        timerRunning := false;
        cooldownSeconds := 0;
      } else {
        cooldownSeconds := cooldownSeconds - 1;
      }
    }

    /** `handleChange`: stores the new value and clears that field's error only. */
    method HandleChange(f: FormField, value: string)
      modifies this
      ensures View() == old(View()).(data := old(data).With(f, value), fieldErrors := old(fieldErrors) - {f})
    {
      data := data.With(f, value);
      if f in fieldErrors {
        fieldErrors := fieldErrors - {f};
      }
    }

    /** `handleSubmit`, given how the request ends. Returns the body posted, if any. */
    method HandleSubmit(outcome: FetchOutcome) returns (sent: Option<Payload>)
      modifies this
      ensures SubmitResult(View(), sent) == Submit(old(View()), outcome)
    {
      if cooldownSeconds > 0 {
        return None;
      }
      var errors := ValidateForm(data);
      if HasErrors(errors) {
        fieldErrors := errors;
        return None;
      }
      sent := Some(FormPayload(data));
      status := Loading;
      errorMessage := "";
      assert View() == old(View()).(status := Loading, errorMessage := "");
      Settle(outcome);
    }

    /** The `try`/`catch` tail of `handleSubmit`, once the request has been sent. */
    method Settle(outcome: FetchOutcome)
      modifies this
      ensures View() == SettleView(old(View()), outcome)
    {
      match outcome
      case Answered(ok, error) =>
        if !ok {
          status := Failed;
          errorMessage := if error.Some? && error.value != "" then error.value else SubmitFailedMessage;
        } else {
          status := Success;
          data := EmptyForm;
          fieldErrors := map[];
          StartCooldown(CooldownAfterSubmit);
        }
      case Threw(message) =>
        status := Failed;
        errorMessage := message.GetOr(UnexpectedFailureMessage);
    }

    /** The "Submit another enquiry" button, shown on the success view once the cooldown is
        over: back to the form. */
    method SubmitAnother()
      requires status == Success && cooldownSeconds <= 0
      modifies this
      ensures View() == old(View()).(status := Idle)
    {
      status := Idle;
    }
  }
}
