/**
 * The login and registration page: where a logged-in user is sent, the
 * login form's required fields, and how a registration form becomes the
 * request body.
 */
module AuthPage {
  import opened Wrappers
  import opened Text
  import opened Schema
  import App

  /** Where the page sends a user who is already logged in; `None` shows the forms. */
  function LoggedInRedirect(user: Option<Role>): (target: Option<string>)
    ensures user.None? <==> target.None?
    ensures user == Some(Worker) ==> target == Some("/worker-dashboard")
    ensures user == Some(Admin) ==> target == Some("/admin")
    ensures user == Some(Customer) ==> target == Some("/dashboard")
  {
    match user
    case None => None
    case Some(role) =>
      if role == Worker then Some("/worker-dashboard")
      else if role == Admin then Some("/admin")
      else Some("/dashboard")
  }

  /** The router has no "/admin" route: a logged-in admin lands on the not-found page. */
  lemma AdminRedirectUnrouted()
    ensures App.Resolve(LoggedInRedirect(Some(Admin)).value) == App.NotFoundPage
  {
  }

  /** A logged-in customer or worker lands on a dashboard that shows itself to them. */
  lemma LoggedInRedirectRenders(role: Role)
    requires role != Admin
    ensures App.Visit(LoggedInRedirect(Some(role)).value, Some(role)) == App.Render
  {
    if role == Worker {
      assert LoggedInRedirect(Some(role)).value == "/worker-dashboard";
    } else {
      assert LoggedInRedirect(Some(role)).value == "/dashboard";
    }
  }

  /** The login form's messages, username first: each field must be non-empty. */
  function LoginFormErrors(username: string, password: string): (errors: seq<string>)
    ensures errors == [] <==> username != "" && password != ""
    ensures "Username is required" in errors <==> username == ""
    ensures "Password is required" in errors <==> password == ""
    ensures |errors| <= 2
  {
    (if username == "" then ["Username is required"] else [])
    + (if password == "" then ["Password is required"] else [])
  }

  /** The visiting-charge field: the default number, or the text typed into the input. */
  datatype ChargeField = NumberCharge(n: int) | TextCharge(text: string) | NullCharge

  /** A JavaScript number, restricted to integers; `NaN` is sent as `null` in JSON. */
  datatype JsNumber = Finite(value: int) | NaN

  predicate AllDigits(s: string) {
    forall k :: 0 <= k < |s| ==> '0' <= s[k] <= '9'
  }

  /** The value of a string of decimal digits, read from the left. */
  function DecimalValue(s: string): (n: nat)
    requires AllDigits(s)
  {
    if s == [] then 0 else DecimalValue(s[..|s| - 1]) * 10 + (s[|s| - 1] as int - '0' as int)
  }

  /** Reading back the decimal text of a number gives the number. */
  lemma {:induction false} DecimalValueOfNatText(n: nat)
    ensures AllDigits(NatText(n)) && DecimalValue(NatText(n)) == n
    decreases n
  {
    if n < 10 {
      assert NatText(n) == [DigitChar(n)];
      assert "0123456789"[n] as int - '0' as int == n;
      assert NatText(n)[..0] == [];
    } else {
      var s := NatText(n);
      assert s == NatText(n / 10) + [DigitChar(n % 10)];
      assert s[..|s| - 1] == NatText(n / 10);
      DecimalValueOfNatText(n / 10);
      assert "0123456789"[n % 10] as int - '0' as int == n % 10;
    }
  }

  /**
   * `Number(value)` for the inputs the field can hold: a number stays, `null`
   * and the empty text are 0, decimal digits are read, any other text and
   * `undefined` are `NaN`.
   */
  function ToNumber(c: Option<ChargeField>): (r: JsNumber)
    ensures c.None? ==> r == NaN
    ensures c == Some(NullCharge) ==> r == Finite(0)
    ensures c.Some? && c.value.NumberCharge? ==> r == Finite(c.value.n)
  {
    match c
    case None => NaN
    case Some(NumberCharge(n)) => Finite(n)
    case Some(NullCharge) => Finite(0)
    case Some(TextCharge(t)) =>
      if t == "" then Finite(0)
      else if AllDigits(t) then Finite(DecimalValue(t))
      else NaN
  }

  /** A charge typed as the decimal text of a number is sent as that number. */
  lemma TypedChargeIsSent(n: nat)
    ensures ToNumber(Some(TextCharge(NatText(n)))) == Finite(n)
  {
    DecimalValueOfNatText(n);
  }

  /** The register form's values. */
  datatype RegisterValues = RegisterValues(
    username: string,
    password: string,
    fullName: string,
    mobile: string,
    address: string,
    pincode: string,
    role: Role,
    workerType: Option<string>,
    visitingCharge: Option<ChargeField>)

  /** The register form's defaults: empty texts, role "user" and a charge of 0. */
  const DefaultRegisterValues: RegisterValues :=
    RegisterValues("", "", "", "", "", "", Customer, None, Some(NumberCharge(0)))

  /** The request body; a `None` field is one the body does not carry. */
  datatype RegisterPayload = RegisterPayload(
    username: string,
    password: string,
    fullName: string,
    mobile: string,
    address: string,
    pincode: string,
    role: Role,
    workerType: Option<string>,
    visitingCharge: Option<JsNumber>)

  /**
   * `RegisterForm.onSubmit`: a non-worker's worker fields are deleted; a
   * worker's charge is converted to a number. Everything else is copied.
   */
  function SubmitRegistration(values: RegisterValues): (p: RegisterPayload)
    ensures p.username == values.username && p.password == values.password
    ensures p.fullName == values.fullName && p.mobile == values.mobile
    ensures p.address == values.address && p.pincode == values.pincode && p.role == values.role
    ensures values.role != Worker ==> p.workerType.None? && p.visitingCharge.None?
    ensures values.role == Worker ==>
      p.workerType == values.workerType && p.visitingCharge == Some(ToNumber(values.visitingCharge))
  {
    var data := RegisterPayload(values.username, values.password, values.fullName, values.mobile,
                                values.address, values.pincode, values.role, values.workerType, None);
    if values.role != Worker then data.(workerType := None)
    else data.(visitingCharge := Some(ToNumber(values.visitingCharge)))
  }

  /** Only a worker's body carries worker fields. */
  lemma WorkerFieldsOnlyForWorkers(values: RegisterValues)
    ensures (SubmitRegistration(values).workerType.Some? || SubmitRegistration(values).visitingCharge.Some?)
            ==> values.role == Worker
  {
  }

  /** Submitting the untouched defaults yields a customer body with no worker fields. */
  lemma DefaultSubmission()
    ensures SubmitRegistration(DefaultRegisterValues)
         == RegisterPayload("", "", "", "", "", "", Customer, None, None)
  {
  }

  /** A worker who types a charge sends it as a number. */
  lemma WorkerChargeSent(values: RegisterValues, n: nat)
    requires values.role == Worker && values.visitingCharge == Some(TextCharge(NatText(n)))
    ensures SubmitRegistration(values).visitingCharge == Some(Finite(n))
  {
    TypedChargeIsSent(n);
  }
}
