/** The sign-in and sign-up page: field validation in the order the page
    checks the fields, the metadata a sign-up sends, and the friendlier
    wording of two errors the authentication service reports. */
module Auth {
  import opened Text

  datatype Role = Student | Teacher

  const InvalidEmail := "Please enter a valid email address"
  const PasswordTooShort := "Password must be at least 6 characters"
  const NameTooShort := "Name must be at least 2 characters"
  const NameTooLong := "String must contain at most 100 character(s)"
  const RateNotNumber := "Expected number, received nan"
  const RateTooLow := "Minimum rate is 100 KSH"
  const RateTooHigh := "Number must be less than or equal to 100000"

  const BadCredentials := "Invalid login credentials"
  const BadCredentialsText := "Invalid email or password. Please try again."
  const AlreadyRegistered := "already registered"
  const AlreadyRegisteredText := "This email is already registered. Try logging in instead."

  /** The password schema: at least six characters. */
  function PasswordError(password: string): (e: Option<string>)
    ensures e.None? <==> |password| >= 6
    ensures e.Some? ==> e.value == PasswordTooShort
  {
    if |password| < 6 then Some(PasswordTooShort) else None
  }

  /** The name schema: between 2 and 100 characters. */
  function NameError(name: string): (e: Option<string>)
    ensures e.None? <==> 2 <= |name| <= 100
    ensures |name| < 2 ==> e == Some(NameTooShort)
    ensures |name| > 100 ==> e == Some(NameTooLong)
  {
    if |name| < 2 then Some(NameTooShort)
    else if |name| > 100 then Some(NameTooLong)
    else None
  }

  /** The rate schema: a number from 100 to 100000; `None` is the `NaN` an
      unreadable entry gives. */
  function RateError(rate: Option<real>): (e: Option<string>)
    ensures e.None? <==> rate.Some? && 100.0 <= rate.value <= 100000.0
    ensures rate.None? ==> e == Some(RateNotNumber)
    ensures rate.Some? && rate.value < 100.0 ==> e == Some(RateTooLow)
    ensures rate.Some? && rate.value > 100000.0 ==> e == Some(RateTooHigh)
  {
    if rate.None? then Some(RateNotNumber)
    else if rate.value < 100.0 then Some(RateTooLow)
    else if rate.value > 100000.0 then Some(RateTooHigh)
    else None
  }

  /** The first of two checks that fails, if any. */
  function FirstError(a: Option<string>, b: Option<string>): (e: Option<string>)
    ensures a.Some? ==> e == a
    ensures a.None? ==> e == b
  {
    if a.Some? then a else b
  }

  /** The login form's validation: the email (whose format check is the
      `emailValid` flag), then the password. */
  function LoginError(emailValid: bool, password: string): (e: Option<string>)
    ensures e.None? <==> emailValid && |password| >= 6
    ensures !emailValid ==> e == Some(InvalidEmail)
    ensures emailValid && e.Some? ==> e == Some(PasswordTooShort)
  {
    FirstError(if emailValid then None else Some(InvalidEmail), PasswordError(password))
  }

  /** The sign-up form's validation: email, password, name, and the hourly
      rate for a teacher only; the first failure is reported. */
  function SignUpError(emailValid: bool, password: string, fullName: string, role: Role,
                       rate: Option<real>): (e: Option<string>)
    ensures e.None? <==>
      emailValid && |password| >= 6 && 2 <= |fullName| <= 100 &&
      (role == Teacher ==> rate.Some? && 100.0 <= rate.value <= 100000.0)
    ensures !emailValid ==> e == Some(InvalidEmail)
    ensures emailValid && |password| < 6 ==> e == Some(PasswordTooShort)
    ensures emailValid && |password| >= 6 ==>
      e == FirstError(NameError(fullName), if role == Teacher then RateError(rate) else None)
  {
    FirstError(LoginError(emailValid, password),
      FirstError(NameError(fullName), if role == Teacher then RateError(rate) else None))
  }

  /** A student's rate field is never checked, whatever it holds. */
  lemma StudentRateIgnored(emailValid: bool, password: string, fullName: string, r1: Option<real>,
                           r2: Option<real>)
    ensures SignUpError(emailValid, password, fullName, Student, r1)
            == SignUpError(emailValid, password, fullName, Student, r2)
  {
  }

  /** The metadata a sign-up sends with the account. */
  datatype Metadata = Metadata(fullName: string, role: Role, hourlyRate: Option<real>)

  /** The full name and the role, and the hourly rate for a teacher only. */
  function SignUpMetadata(fullName: string, role: Role, rate: real): (m: Metadata)
    ensures m.fullName == fullName && m.role == role
    ensures m.hourlyRate.Some? <==> role == Teacher
    ensures m.hourlyRate.Some? ==> m.hourlyRate.value == rate
  {
    if role == Teacher then Metadata(fullName, role, Some(rate)) else Metadata(fullName, role, None)
  }

  /** The login error shown: any text mentioning bad credentials becomes the
      fixed friendly sentence; any other text is shown as it came. */
  function FriendlyLoginMessage(message: string): (shown: string)
    ensures Contains(message, BadCredentials) ==> shown == BadCredentialsText
    ensures !Contains(message, BadCredentials) ==> shown == message
  {
    if Contains(message, BadCredentials) then BadCredentialsText else message
  }

  /** The sign-up error shown, reworded the same way for an address already
      registered. */
  function FriendlySignUpMessage(message: string): (shown: string)
    ensures Contains(message, AlreadyRegistered) ==> shown == AlreadyRegisteredText
    ensures !Contains(message, AlreadyRegistered) ==> shown == message
  {
    if Contains(message, AlreadyRegistered) then AlreadyRegisteredText else message
  }

  /** The friendly sentence does not itself mention bad credentials, so
      rewording twice is rewording once. */
  lemma FriendlyLoginMessageIdempotent(message: string)
    ensures FriendlyLoginMessage(FriendlyLoginMessage(message)) == FriendlyLoginMessage(message)
  {
    if Contains(message, BadCredentials) {
      NoBadCredentialsInText();
    }
  }

  lemma NoBadCredentialsInText()
    ensures !Contains(BadCredentialsText, BadCredentials)
  {
    var s := BadCredentialsText;
    forall k | 0 <= k <= |s| - |BadCredentials|
      ensures !OccursAt(s, BadCredentials, k)
    {
      // Only the first letter of the sentence is an 'I', and it is followed
      // by "nvalid e", not "nvalid l".
      if k == 0 {
        MismatchAt(s, BadCredentials, 0, 8);
      } else {
        MismatchAt(s, BadCredentials, k, 0);
      }
    }
  }

  /** What pressing a form's button ends in: a validation message (nothing
      is sent), the service's error as shown, or success and where the page
      then goes, if anywhere. */
  datatype Outcome = Invalid(message: string) | Failed(message: string) | Succeeded(goTo: Option<string>)

  /** `handleLogin`: `answer` is the error the sign-in call returns (`None`
      on success); it is consulted only when the form is valid. */
  function Login(emailValid: bool, password: string, answer: Option<string>): (o: Outcome)
    ensures o.Invalid? <==> LoginError(emailValid, password).Some?
    ensures o.Invalid? ==> o.message == LoginError(emailValid, password).value
    ensures o.Failed? <==> LoginError(emailValid, password).None? && answer.Some?
    ensures o.Failed? ==> o.message == FriendlyLoginMessage(answer.value)
    ensures o.Succeeded? ==> o.goTo == Some("/")
  {
    var invalid := LoginError(emailValid, password);
    if invalid.Some? then Invalid(invalid.value)
    else if answer.Some? then Failed(FriendlyLoginMessage(answer.value))
    else Succeeded(Some("/"))
  }

  /** The sign-up call, with its metadata, made only for a valid form;
      `None` when validation stops it. */
  function SignUpRequest(emailValid: bool, password: string, fullName: string, role: Role,
                         rate: Option<real>): (m: Option<Metadata>)
    ensures m.None? <==> SignUpError(emailValid, password, fullName, role, rate).Some?
    ensures m.Some? ==> m.value.fullName == fullName && m.value.role == role
    ensures m.Some? ==> (m.value.hourlyRate.Some? <==> role == Teacher)
    ensures m.Some? && role == Teacher ==> m.value.hourlyRate == rate
  {
    if SignUpError(emailValid, password, fullName, role, rate).Some? then None
    else Some(SignUpMetadata(fullName, role, if rate.Some? then rate.value else 0.0))
  }

  /** `handleSignUp`: `answer` is the error the sign-up call returns (`None`
      on success); after success only a teacher is sent on, to complete the
      teacher profile. */
  function SignUp(emailValid: bool, password: string, fullName: string, role: Role, rate: Option<real>,
                  answer: Option<string>): (o: Outcome)
    ensures o.Invalid? <==> SignUpRequest(emailValid, password, fullName, role, rate).None?
    ensures o.Invalid? ==> o.message == SignUpError(emailValid, password, fullName, role, rate).value
    ensures o.Failed? ==> answer.Some? && o.message == FriendlySignUpMessage(answer.value)
    ensures o.Succeeded? <==> !o.Invalid? && answer.None?
    ensures o.Succeeded? ==> (o.goTo.Some? <==> role == Teacher)
    ensures o.Succeeded? && role == Teacher ==> o.goTo == Some("/teacher-onboarding")
  {
    var invalid := SignUpError(emailValid, password, fullName, role, rate);
    if invalid.Some? then Invalid(invalid.value)
    else if answer.Some? then Failed(FriendlySignUpMessage(answer.value))
    else Succeeded(if role == Teacher then Some("/teacher-onboarding") else None)
  }

  /** An invalid form makes no call: the outcome is the same whatever the
      service would have answered. */
  lemma InvalidFormIgnoresService(emailValid: bool, password: string, fullName: string, role: Role,
                                  rate: Option<real>, a1: Option<string>, a2: Option<string>)
    requires SignUpError(emailValid, password, fullName, role, rate).Some?
    ensures SignUp(emailValid, password, fullName, role, rate, a1)
            == SignUp(emailValid, password, fullName, role, rate, a2)
    ensures LoginError(emailValid, password).Some? ==> Login(emailValid, password, a1) == Login(emailValid, password, a2)
  {
  }
}
