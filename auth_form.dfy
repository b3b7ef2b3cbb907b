/** The sign-in flow of src/components/auth/AuthForm.jsx: the two form
    schemas, the full phone number, and the two submit handlers stepping the
    session store (`setLoading`, `login`) and the form's own state (`step`,
    `selectedCountry`, `phoneNumber`). The `await`s of the handlers are taken
    to resolve at once. */
module AuthForm {
  import opened Seqs
  import opened Text
  import opened Auth
  import opened Api
  import opened CountrySelector

  // ---------------------------------------------------------------------------
  // Schemas: the messages of every failing check, in the order declared

  predicate PhoneValid(phone: string)
  {
    5 <= |phone| <= 15 && AllDigits(phone)
  }

  /** phoneSchema. */
  function PhoneIssues(phone: string): (issues: seq<string>)
    ensures issues == [] <==> PhoneValid(phone)
  {
    (if |phone| < 5 then ["Phone number must be at least 5 digits"] else []) +
    (if |phone| > 15 then ["Phone number must be at most 15 digits"] else []) +
    (if !AllDigits(phone) then ["Phone number must contain only digits"] else [])
  }

  predicate OtpValid(otp: string)
  {
    4 <= |otp| <= 6 && AllDigits(otp)
  }

  predicate NameValid(name: string)
  {
    2 <= |name| <= 50
  }

  /** otpSchema: the `otp` field's issues, then the `name` field's. */
  function OtpFormIssues(otp: string, name: string): (issues: seq<string>)
    ensures issues == [] <==> OtpValid(otp) && NameValid(name)
  {
    (if |otp| < 4 then ["OTP must be at least 4 digits"] else []) +
    (if |otp| > 6 then ["OTP must be at most 6 digits"] else []) +
    (if !AllDigits(otp) then ["OTP must contain only digits"] else []) +
    (if |name| < 2 then ["Name must be at least 2 characters"] else []) +
    (if |name| > 50 then ["Name must be at most 50 characters"] else [])
  }

  /** The schema and the simulated verifier accept the same codes, so a
      submitted code is never reported invalid. */
  lemma OtpSchemaMatchesVerification(otp: string)
    ensures OtpValid(otp) <==> SimulateOtpVerification(otp)
  {
  }

  /** `fullPhone`: the selected country's dial code followed by the number. */
  function FullPhone(c: Country, phone: string): (r: string)
    ensures r == DialCode(c) + phone
    ensures |r| == |DialCode(c)| + |phone| && r[|DialCode(c)|..] == phone
  {
    RootText(c.idd.root) + FirstSuffix(c.idd.suffixes) + phone
  }

  /** `selectedCountry?.cca2 || ''`. */
  function CountryCode(selected: Option<Country>): string
  {
    if selected.Some? then selected.value.cca2 else ""
  }

  const MockToken: string := "mock-jwt-token"

  datatype Step = PhoneStep | OtpStep

  datatype PhoneOutcome = PhoneRejected(issues: seq<string>) | NoCountry | OtpSent(fullPhone: string)

  datatype OtpOutcome = OtpRejected(issues: seq<string>) | InvalidOtp | LoggedIn(user: User)

  class AuthFormView {
    const auth: AuthStore
    var step: Step
    var selectedCountry: Option<Country>
    var phoneNumber: string

    constructor (auth: AuthStore)
      ensures this.auth == auth
      ensures step == PhoneStep && selectedCountry == None && phoneNumber == ""
    {
      this.auth := auth;
      step := PhoneStep;
      selectedCountry := None;
      phoneNumber := "";
    }

    /** The selector's onSelect. */
    method SelectCountry(c: Country)
      modifies this
      ensures selectedCountry == Some(c)
      ensures step == old(step) && phoneNumber == old(phoneNumber)
    {
      selectedCountry := Some(c);
    }

    /** The back button of the OTP step. */
    method Back()
      modifies this
      ensures step == PhoneStep
      ensures selectedCountry == old(selectedCountry) && phoneNumber == old(phoneNumber)
    {
      step := PhoneStep;
    }

    /** Phone submit: the schema runs first; with no country selected the
        handler stops before touching anything; otherwise the OTP is "sent" to
        the full number and the form moves to the OTP step. */
    method SubmitPhone(phone: string) returns (outcome: PhoneOutcome)
      modifies this, auth
      ensures PhoneIssues(phone) != [] ==>
        outcome == PhoneRejected(PhoneIssues(phone)) && unchanged(this, auth)
      ensures PhoneIssues(phone) == [] && old(selectedCountry).None? ==>
        outcome == NoCountry && unchanged(this, auth)
      ensures PhoneIssues(phone) == [] && old(selectedCountry).Some? ==>
        && outcome == OtpSent(FullPhone(old(selectedCountry).value, phone))
        && phoneNumber == outcome.fullPhone && step == OtpStep
        && selectedCountry == old(selectedCountry)
        && !auth.isLoading && auth.authData == old(auth.authData)
    {
      var issues := PhoneIssues(phone);
      if issues != [] {
        return PhoneRejected(issues);
      }
      if selectedCountry.None? {
        return NoCountry;
      }
      auth.SetLoading(true);
      var fullPhone := FullPhone(selectedCountry.value, phone);
      var sent := SimulateOtpSend(fullPhone);
      phoneNumber := fullPhone;
      step := OtpStep;
      auth.SetLoading(false);
      outcome := OtpSent(fullPhone);
    }

    /** OTP submit: the schema runs first; a verified code builds the user
        record from the stored full number and the selected country and logs
        in once. */
    method SubmitOtp(otp: string, name: string, now: nat) returns (outcome: OtpOutcome)
      modifies auth
      ensures OtpFormIssues(otp, name) != [] ==>
        outcome == OtpRejected(OtpFormIssues(otp, name)) && unchanged(auth)
      ensures OtpFormIssues(otp, name) == [] ==>
        && outcome == LoggedIn(User(NatToDecimal(now), phoneNumber, CountryCode(selectedCountry), name, now))
        && auth.authData == Some(AuthData(outcome.user, true, MockToken))
        && !auth.isLoading
    {
      var issues := OtpFormIssues(otp, name);
      if issues != [] {
        return OtpRejected(issues);
      }
      auth.SetLoading(true);
      var isValid := SimulateOtpVerification(otp);
      outcome := InvalidOtp;
      if isValid {
        var user := User(NatToDecimal(now), phoneNumber, CountryCode(selectedCountry), name, now);
        auth.Login(user, MockToken);
        outcome := LoggedIn(user);
      }
      auth.SetLoading(false);
    }
  }
}
