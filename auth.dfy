/**
 * The login and sign-up screens (components/LoginScreen.js and
 * my-new-project/components/LoginScreen.js): ordered local checks on the typed
 * credentials, one request when they pass, and an outcome that is either an
 * alert or a reset of the navigation stack onto the home tabs.
 */
module Auth {
  import opened Wrappers
  import opened Backend
  import opened Numbers
  import Text

  const FillAllFields: string := "Please fill in all fields"
  const MpinLength: string := "MPIN must be 6 digits"
  const PasswordLength: string := "Password must be at least 8 characters"
  const InvalidLogin: string := "Invalid login"
  const NetworkError: string := "Network error. Try again."
  const SignUpFailed: string := "Sign-up failed"
  const SignUpDone: string := "Sign-up successful. Please log in."
  const HomeRoute: string := "BottomNavigation"

  datatype ContactRecord = ContactRecord(mobileNumber: string, name: string)

  datatype User = User(name: string, walletAmount: Number)

  /** The success body of `/login`; `user` may be missing, and so may either contact list. */
  datatype LoginBody = LoginBody(
    user: Option<User>,
    contacts: Option<seq<ContactRecord>>,
    recentContacts: Option<seq<ContactRecord>>)

  datatype LoginRequest = LoginRequest(mobileNumber: string, mpin: string)

  /** The params handed to the home tabs. */
  datatype HomeParams = HomeParams(
    name: string,
    balance: Number,
    contacts: seq<ContactRecord>,
    recentContacts: seq<ContactRecord>,
    myNumber: string)

  datatype LoginOutcome = ShowAlert(alert: Alert) | ResetTo(route: string, params: HomeParams)

  datatype LoginResult = LoginResult(request: Option<LoginRequest>, outcome: LoginOutcome)

  /**
   * The local checks of `handleLogin`, first failure first: both fields present
   * after trimming, then an MPIN of exactly six characters (not trimmed, digits
   * not checked). None when every check passes.
   */
  function LoginCheck(phone: string, mpin: string): (r: Option<string>)
    ensures r == None <==> !Text.IsBlank(phone) && !Text.IsBlank(mpin) && |mpin| == 6
    ensures Text.IsBlank(phone) || Text.IsBlank(mpin) ==> r == Some(FillAllFields)
    ensures !Text.IsBlank(phone) && !Text.IsBlank(mpin) && |mpin| != 6 ==> r == Some(MpinLength)
  {
    if Text.IsBlank(phone) || Text.IsBlank(mpin) then Some(FillAllFields)
    else if |mpin| != 6 then Some(MpinLength)
    else None
  }

  /** `handleLogin` with the typed `phone` and `mpin`, when the backend answers `response`. */
  function Login(phone: string, mpin: string, response: Response<LoginBody>): (r: LoginResult)
    ensures r.request.Some? <==> LoginCheck(phone, mpin).None?
    ensures r.request.None? ==> r.outcome == ShowAlert(Alert(ErrorTitle, LoginCheck(phone, mpin).value))
    ensures r.request.Some? ==> r.request.value == LoginRequest(phone, mpin)
    ensures r.outcome.ResetTo? <==> r.request.Some? && response.Ok? && response.data.user.Some?
    ensures r.outcome.ResetTo? ==>
      var body := response.data;
      r.outcome == ResetTo(HomeRoute, HomeParams(body.user.value.name, body.user.value.walletAmount,
        body.contacts.GetOr([]), body.recentContacts.GetOr([]), phone))
    ensures r.request.Some? && response.Rejected? ==>
      r.outcome == ShowAlert(Alert(ErrorTitle, MessageOr(response.message, InvalidLogin)))
    ensures r.request.Some? && (response.Unreachable? || (response.Ok? && response.data.user.None?)) ==>
      r.outcome == ShowAlert(Alert(ErrorTitle, NetworkError))
  {
    match LoginCheck(phone, mpin)
    case Some(problem) => LoginResult(None, ShowAlert(Alert(ErrorTitle, problem)))
    case None =>
      var request := Some(LoginRequest(phone, mpin));
      match response
      case Ok(body) =>
        // Reading `data.user.name` of a body without `user` throws into the catch.
        if body.user.None? then LoginResult(request, ShowAlert(Alert(ErrorTitle, NetworkError)))
        else
          var params := HomeParams(body.user.value.name, body.user.value.walletAmount,
            body.contacts.GetOr([]), body.recentContacts.GetOr([]), phone);
          LoginResult(request, ResetTo(HomeRoute, params))
      case Rejected(message) => LoginResult(request, ShowAlert(Alert(ErrorTitle, MessageOr(message, InvalidLogin))))
      case Unreachable => LoginResult(request, ShowAlert(Alert(ErrorTitle, NetworkError)))
  }

  /**
   * The MPIN check is on length only: any six characters pass once the phone is
   * filled in, digits or not, as long as they are not all white space.
   */
  lemma AnySixCharacterMpinPasses(phone: string, mpin: string, k: nat)
    requires !Text.IsBlank(phone) && |mpin| == 6
    requires k < 6 && !Text.IsJsSpace(mpin[k])
    ensures LoginCheck(phone, mpin) == None
  {
    Text.BlankIffAllSpace(mpin);
  }

  /** Six spaces are reported as a missing field, not as a wrong-length MPIN. */
  lemma BlankMpinReportedFirst(phone: string, mpin: string)
    requires |mpin| == 6 && forall i :: 0 <= i < 6 ==> mpin[i] == ' '
    ensures LoginCheck(phone, mpin) == Some(FillAllFields)
  {
    Text.BlankIffAllSpace(mpin);
  }

  /** The sign-up form's five fields. */
  datatype SignUpForm = SignUpForm(mobileNumber: string, name: string, email: string, password: string, mpin: string)

  /** The body of a `/signup` request. */
  datatype SignUpRequest = SignUpRequest(mobileNumber: string, name: string, email: string, password: string, mpin: string)

  /** What one press of Sign Up does; `accepted` is the backend accepting the account. */
  datatype SignUpResult = SignUpResult(request: Option<SignUpRequest>, alert: Alert, accepted: bool)

  predicate AnyBlank(d: SignUpForm) {
    Text.IsBlank(d.mobileNumber) || Text.IsBlank(d.name) || Text.IsBlank(d.email)
      || Text.IsBlank(d.password) || Text.IsBlank(d.mpin)
  }

  /**
   * The local checks of `handleSignUp`, first failure first: no field blank,
   * then a password of at least eight characters, then a six-character MPIN.
   */
  function SignUpCheck(d: SignUpForm): (r: Option<string>)
    ensures r == None <==> !AnyBlank(d) && |d.password| >= 8 && |d.mpin| == 6
    ensures AnyBlank(d) ==> r == Some(FillAllFields)
    ensures !AnyBlank(d) && |d.password| < 8 ==> r == Some(PasswordLength)
    ensures !AnyBlank(d) && |d.password| >= 8 && |d.mpin| != 6 ==> r == Some(MpinLength)
  {
    if AnyBlank(d) then Some(FillAllFields)
    else if |d.password| < 8 then Some(PasswordLength)
    else if |d.mpin| != 6 then Some(MpinLength)
    else None
  }

  /** `handleSignUp` on form `d`, when the backend answers `response`. */
  function SignUp(d: SignUpForm, response: Response<()>): (r: SignUpResult)
    ensures r.request.Some? <==> SignUpCheck(d).None?
    ensures r.request.None? ==> r.alert == Alert(ErrorTitle, SignUpCheck(d).value) && !r.accepted
    ensures r.request.Some? ==>
      r.request.value == SignUpRequest(d.mobileNumber, d.name, Text.Lower(d.email), d.password, d.mpin)
    ensures r.accepted <==> r.request.Some? && response.Ok?
    ensures r.accepted ==> r.alert == Alert(SuccessTitle, SignUpDone)
    ensures r.request.Some? && response.Rejected? ==> r.alert == Alert(ErrorTitle, MessageOr(response.message, SignUpFailed))
    ensures r.request.Some? && response.Unreachable? ==> r.alert == Alert(ErrorTitle, NetworkError)
  {
    match SignUpCheck(d)
    case Some(problem) => SignUpResult(None, Alert(ErrorTitle, problem), false)
    case None =>
      var request := Some(SignUpRequest(d.mobileNumber, d.name, Text.Lower(d.email), d.password, d.mpin));
      match response
      case Ok(_) => SignUpResult(request, Alert(SuccessTitle, SignUpDone), true)
      case Rejected(message) => SignUpResult(request, Alert(ErrorTitle, MessageOr(message, SignUpFailed)), false)
      case Unreachable => SignUpResult(request, Alert(ErrorTitle, NetworkError), false)
  }

  /** The login screen of components/LoginScreen.js, which also hosts the sign-up form. */
  class LoginScreen {
    var phoneNumber: string
    var mpin: string
    var isSignUp: bool
    var signUpData: SignUpForm

    constructor ()
      ensures phoneNumber == "" && mpin == "" && !isSignUp
      ensures signUpData == SignUpForm("", "", "", "", "")
    {
      phoneNumber, mpin := "", "";
      isSignUp := false;
      signUpData := SignUpForm("", "", "", "", "");
    }

    /** `onChangeText={setPhoneNumber}` */
    method SetPhoneNumber(text: string)
      modifies this
      ensures phoneNumber == text
      ensures mpin == old(mpin) && isSignUp == old(isSignUp) && signUpData == old(signUpData)
    {
      phoneNumber := text;
    }

    /** `onChangeText={setMpin}` */
    method SetMpin(text: string)
      modifies this
      ensures mpin == text
      ensures phoneNumber == old(phoneNumber) && isSignUp == old(isSignUp) && signUpData == old(signUpData)
    {
      mpin := text;
    }

    /** `setSignUpData({ ...signUpData, field: text })` from any of the five sign-up inputs. */
    method SetSignUpData(data: SignUpForm)
      modifies this
      ensures signUpData == data
      ensures phoneNumber == old(phoneNumber) && mpin == old(mpin) && isSignUp == old(isSignUp)
    {
      signUpData := data;
    }

    /** "Sign Up" (`true`) and "Back to Login" (`false`) switch between the two forms. */
    method SetIsSignUp(value: bool)
      modifies this
      ensures isSignUp == value
      ensures phoneNumber == old(phoneNumber) && mpin == old(mpin) && signUpData == old(signUpData)
    {
      isSignUp := value;
    }

    /** `handleLogin`: reads the typed credentials and changes no state of the screen. */
    method HandleLogin(response: Response<LoginBody>) returns (r: LoginResult)
      ensures r == Login(phoneNumber, mpin, response)
    {
      r := Login(phoneNumber, mpin, response);
    }

    /** `handleSignUp`: leaves sign-up mode exactly when the backend accepts the account. */
    method HandleSignUp(response: Response<()>) returns (r: SignUpResult)
      modifies this
      ensures r == SignUp(old(signUpData), response)
      ensures isSignUp == (old(isSignUp) && !r.accepted)
      ensures phoneNumber == old(phoneNumber) && mpin == old(mpin) && signUpData == old(signUpData)
    {
      r := SignUp(signUpData, response);
      isSignUp := isSignUp && !r.accepted;
    }
  }
}
