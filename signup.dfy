/**
 * The sign-up form: its field updates, the official-number input filter and
 * the chain of guards `handleSubmit` runs before contacting the
 * authentication service. The first guard that fails decides the error.
 */
module SignUp {
  import opened Wrappers
  import opened Text
  import opened Seqs

  /** The form state; `userType` is "" until an account type is chosen. */
  datatype SignUpForm = SignUpForm(
    name: string,
    email: string,
    password: string,
    confirmPassword: string,
    phone: string,
    userType: string,
    governmentId: string,
    officialNumber: string)

  const EmptyForm := SignUpForm("", "", "", "", "", "", "", "")

  datatype Field = Name | Email | Password | ConfirmPassword | Phone | UserType | GovernmentId | OfficialNumber

  function Get(form: SignUpForm, field: Field): string {
    match field
    case Name => form.name
    case Email => form.email
    case Password => form.password
    case ConfirmPassword => form.confirmPassword
    case Phone => form.phone
    case UserType => form.userType
    case GovernmentId => form.governmentId
    case OfficialNumber => form.officialNumber
  }

  /** `handleInputChange`: `{ ...prev, [field]: value }`. */
  function Update(form: SignUpForm, field: Field, value: string): (r: SignUpForm)
    ensures Get(r, field) == value
    ensures forall other :: other != field ==> Get(r, other) == Get(form, other)
  {
    match field
    case Name => form.(name := value)
    case Email => form.(email := value)
    case Password => form.(password := value)
    case ConfirmPassword => form.(confirmPassword := value)
    case Phone => form.(phone := value)
    case UserType => form.(userType := value)
    case GovernmentId => form.(governmentId := value)
    case OfficialNumber => form.(officialNumber := value)
  }

  const MinPasswordLength := 6
  const OfficialNumberLength := 8

  /**
   * `replace(/\D/g, '')`: every ASCII digit of `s`, in order, each as often
   * as it occurs, and nothing else.
   */
  function DigitsOnly(s: string): (r: string)
    ensures IsSubsequence(r, s) && |r| <= |s|
    ensures forall c :: multiset(r)[c] == if IsAsciiDigit(c) then multiset(s)[c] else 0
    ensures forall i :: 0 <= i < |r| ==> IsAsciiDigit(r[i])
  {
    FilterIsSubsequence(IsAsciiDigit, s);
    FilterMultiplicity(IsAsciiDigit, s);
    Filter(IsAsciiDigit, s)
  }

  /** A string of digits passes through the digit filter unchanged. */
  lemma DigitsOnlyOfDigits(s: string)
    requires forall i :: 0 <= i < |s| ==> IsAsciiDigit(s[i])
    ensures DigitsOnly(s) == s
  {
    FilterAllKept(IsAsciiDigit, s);
  }

  /** The official-number input filter: `value.replace(/\D/g, '').slice(0, 8)`. */
  function SanitizeOfficialNumber(s: string): (r: string)
    ensures |r| <= OfficialNumberLength
    ensures forall i :: 0 <= i < |r| ==> IsAsciiDigit(r[i])
    ensures r <= DigitsOnly(s)
    ensures |r| == if |DigitsOnly(s)| < OfficialNumberLength then |DigitsOnly(s)| else OfficialNumberLength
  {
    var d := DigitsOnly(s);
    if |d| <= OfficialNumberLength then d else d[..OfficialNumberLength]
  }

  /** Filtering an already filtered official number changes nothing. */
  lemma SanitizeIdempotent(s: string)
    ensures SanitizeOfficialNumber(SanitizeOfficialNumber(s)) == SanitizeOfficialNumber(s)
  {
    DigitsOnlyOfDigits(SanitizeOfficialNumber(s));
  }

  /** A value is left unchanged by the filter exactly when it is at most eight digits. */
  lemma SanitizeFixedPoints(s: string)
    ensures SanitizeOfficialNumber(s) == s <==>
            |s| <= OfficialNumberLength && forall i :: 0 <= i < |s| ==> IsAsciiDigit(s[i])
  {
    if |s| <= OfficialNumberLength && forall i :: 0 <= i < |s| ==> IsAsciiDigit(s[i]) {
      DigitsOnlyOfDigits(s);
    }
  }

  /** The official-number input's change handler: filter, then `handleInputChange`. */
  function OfficialNumberInput(form: SignUpForm, raw: string): (r: SignUpForm)
    ensures r.officialNumber == SanitizeOfficialNumber(raw)
    ensures forall other :: other != OfficialNumber ==> Get(r, other) == Get(form, other)
  {
    Update(form, OfficialNumber, SanitizeOfficialNumber(raw))
  }

  /** The errors `handleSubmit` reports, one per guard, in the order the guards run. */
  datatype SignUpError =
    | CaptchaRequired
    | PhoneRequired
    | PasswordMismatch
    | WeakPassword
    | GovernmentIdRequired
    | OfficialNumberRequired
    | InvalidOfficialNumber

  /** The position of the guard reporting `e` in `handleSubmit`. */
  function Rank(e: SignUpError): nat {
    match e
    case CaptchaRequired => 0
    case PhoneRequired => 1
    case PasswordMismatch => 2
    case WeakPassword => 3
    case GovernmentIdRequired => 4
    case OfficialNumberRequired => 5
    case InvalidOfficialNumber => 6
  }

  /** Only government and employee accounts are asked for their identifiers. */
  predicate NeedsOfficialIds(userType: string) {
    userType == "government" || userType == "employee"
  }

  /** The pattern `^\d{8}$`. */
  predicate IsEightDigits(s: string) {
    |s| == OfficialNumberLength && forall i :: 0 <= i < |s| ==> IsAsciiDigit(s[i])
  }

  /** The condition under which the guard reporting `e` rejects, read on its own. */
  predicate GuardFails(form: SignUpForm, captchaVerified: bool, e: SignUpError) {
    match e
    case CaptchaRequired => !captchaVerified
    case PhoneRequired => IsBlank(form.phone)
    case PasswordMismatch => form.password != form.confirmPassword
    case WeakPassword => Utf16Length(form.password) < MinPasswordLength
    case GovernmentIdRequired => NeedsOfficialIds(form.userType) && form.governmentId == ""
    case OfficialNumberRequired => NeedsOfficialIds(form.userType) && form.officialNumber == ""
    case InvalidOfficialNumber => NeedsOfficialIds(form.userType) && !IsEightDigits(form.officialNumber)
  }

  /** The guards of `handleSubmit`, up to the point where it would call the sign-up service. */
  function Validate(form: SignUpForm, captchaVerified: bool): (r: Outcome<SignUpError>)
    ensures !captchaVerified ==> r == Fail(CaptchaRequired)
    ensures r.Fail? ==> GuardFails(form, captchaVerified, r.error)
    ensures r == Pass <==>
      && captchaVerified
      && !IsBlank(form.phone)
      && form.password == form.confirmPassword
      && Utf16Length(form.password) >= MinPasswordLength
      && (NeedsOfficialIds(form.userType) ==> form.governmentId != "" && IsEightDigits(form.officialNumber))
  {
    if !captchaVerified then Fail(CaptchaRequired)
    else if IsBlank(form.phone) then Fail(PhoneRequired)
    else if form.password != form.confirmPassword then Fail(PasswordMismatch)
    else if Utf16Length(form.password) < MinPasswordLength then Fail(WeakPassword)
    else if NeedsOfficialIds(form.userType) then
      if form.governmentId == "" then Fail(GovernmentIdRequired)
      else if form.officialNumber == "" then Fail(OfficialNumberRequired)
      else if !IsEightDigits(form.officialNumber) then Fail(InvalidOfficialNumber)
      else Pass
    else Pass
  }

  /** The error reported is the first failing guard in source order, and only that one. */
  lemma ValidateReportsFirstFailure(form: SignUpForm, captchaVerified: bool, e: SignUpError)
    ensures Validate(form, captchaVerified) == Fail(e) <==>
      GuardFails(form, captchaVerified, e) &&
      forall earlier :: Rank(earlier) < Rank(e) ==> !GuardFails(form, captchaVerified, earlier)
  {
    var v := captchaVerified;
    var before := forall earlier :: Rank(earlier) < Rank(e) ==> !GuardFails(form, v, earlier);
    if GuardFails(form, v, e) && before {
      match e
      case CaptchaRequired =>
      case PhoneRequired => assert !GuardFails(form, v, CaptchaRequired);
      case PasswordMismatch =>
        assert !GuardFails(form, v, CaptchaRequired) && !GuardFails(form, v, PhoneRequired);
      case WeakPassword =>
        assert !GuardFails(form, v, CaptchaRequired) && !GuardFails(form, v, PhoneRequired);
        assert !GuardFails(form, v, PasswordMismatch);
      case GovernmentIdRequired =>
        assert !GuardFails(form, v, CaptchaRequired) && !GuardFails(form, v, PhoneRequired);
        assert !GuardFails(form, v, PasswordMismatch) && !GuardFails(form, v, WeakPassword);
      case OfficialNumberRequired =>
        assert !GuardFails(form, v, CaptchaRequired) && !GuardFails(form, v, PhoneRequired);
        assert !GuardFails(form, v, PasswordMismatch) && !GuardFails(form, v, WeakPassword);
        assert !GuardFails(form, v, GovernmentIdRequired);
      case InvalidOfficialNumber =>
        assert !GuardFails(form, v, CaptchaRequired) && !GuardFails(form, v, PhoneRequired);
        assert !GuardFails(form, v, PasswordMismatch) && !GuardFails(form, v, WeakPassword);
        assert !GuardFails(form, v, GovernmentIdRequired) && !GuardFails(form, v, OfficialNumberRequired);
    }
  }

  /** Submission passes exactly when no guard fails. */
  lemma ValidatePassesIff(form: SignUpForm, captchaVerified: bool)
    ensures Validate(form, captchaVerified) == Pass <==>
            forall e :: !GuardFails(form, captchaVerified, e)
  {
    var v := captchaVerified;
    if Validate(form, v) != Pass {
      assert GuardFails(form, v, Validate(form, v).error);
    }
  }

  /** A phone number of whitespace only is rejected once the captcha is solved. */
  lemma WhitespacePhoneRejected(form: SignUpForm)
    requires AllWhitespace(form.phone)
    ensures Validate(form, true) == Fail(PhoneRequired)
  {
  }

  /** The government ID is tested for emptiness only: an ID of one space passes that guard. */
  lemma SpaceGovernmentIdAccepted(form: SignUpForm)
    requires form.phone == "5550100" && form.password == "secret" && form.confirmPassword == "secret"
    requires form.userType == "employee" && form.governmentId == " " && form.officialNumber == "12345678"
    ensures Validate(form, true) == Pass
  {
    assert !AllWhitespace(form.phone) by { assert !IsJsWhitespace(form.phone[0]); }
    Utf16LengthBmp(form.password);
  }

  /** Account types other than government and employee skip the identifier guards entirely. */
  lemma OtherTypesSkipIdChecks(form: SignUpForm, captchaVerified: bool)
    requires !NeedsOfficialIds(form.userType)
    ensures Validate(form, captchaVerified).Fail? ==> Rank(Validate(form, captchaVerified).error) <= Rank(WeakPassword)
    ensures Validate(form, captchaVerified) == Validate(form.(governmentId := "", officialNumber := ""), captchaVerified)
  {
  }

  /**
   * A value typed into the official-number input satisfies the eight-digit
   * pattern exactly when the typed text holds at least eight digits.
   */
  lemma SanitizedNumberMatchesIff(raw: string)
    ensures IsEightDigits(SanitizeOfficialNumber(raw)) <==> |DigitsOnly(raw)| >= OfficialNumberLength
  {
  }
}
