/** The sign-in / sign-up form (AuthModal): prefill from the onboarding data, the
    ordered validation of a sign-up, and the loading, error and success flags of a
    submit. The provider call itself belongs to the authentication hook; its
    outcome is a parameter here. */
module AuthForm {
  import opened Model

  datatype AuthMode = SignIn | SignUp

  const SignInFailed: string := "Email ou mot de passe incorrect"
  const SignInDone: string := "Connexion réussie ! Redirection..."
  const MissingFields: string := "Veuillez remplir tous les champs"
  const PasswordMismatch: string := "Les mots de passe ne correspondent pas"
  const PasswordTooShort: string := "Le mot de passe doit contenir au moins 6 caractères"
  const SignUpFailed: string := "Erreur lors de la création du compte"
  const SignUpDone: string := "Compte créé avec succès ! Redirection..."
  const UnexpectedError: string := "Une erreur est survenue"
  const MinPasswordLength: nat := 6

  /** The first failing sign-up check, in the order the form makes them: missing
      name or profession, then different passwords, then a short password. */
  function SignUpCheck(name: string, profession: string, password: string, confirm: string): (r: Option<string>)
    ensures r.None? <==>
      name != "" && profession != "" && password == confirm && |password| >= MinPasswordLength
    ensures (name == "" || profession == "") ==> r == Some(MissingFields)
    ensures name != "" && profession != "" && password != confirm ==> r == Some(PasswordMismatch)
    ensures name != "" && profession != "" && password == confirm && |password| < MinPasswordLength ==>
      r == Some(PasswordTooShort)
  {
    if name == "" || profession == "" then Some(MissingFields)
    else if password != confirm then Some(PasswordMismatch)
    else if |password| < MinPasswordLength then Some(PasswordTooShort)
    else None
  }

  /** What a submit asks of the authentication hook once its checks pass. */
  datatype Call =
    | NoCall
    | CallSignIn(email: string, password: string)
    | CallSignUp(email: string, password: string, name: string, profession: string)

  /** How the awaited provider call ended: it returned no error, returned an error,
      or threw. */
  datatype CallOutcome = Succeeded | Failed | Threw

  class AuthModalForm {
    var email: string
    var password: string
    var confirmPassword: string
    var name: string
    var profession: string
    var loading: bool
    var error: Option<string>
    var success: Option<string>
    var showPassword: bool
    var showConfirmPassword: bool

    /** Every field empty and every flag down (the initial state and `resetForm`). */
    predicate Cleared()
      reads this
    {
      email == "" && password == "" && confirmPassword == "" && name == "" && profession == ""
      && error.None? && success.None? && !showPassword && !showConfirmPassword
    }

    constructor()
      ensures Cleared() && !loading
    {
      email := "";
      password := "";
      confirmPassword := "";
      name := "";
      profession := "";
      loading := false;
      error := None;
      success := None;
      showPassword := false;
      showConfirmPassword := false;
    }

    method SetFields(email: string, password: string, confirmPassword: string, name: string, profession: string)
      modifies this
      ensures this.email == email && this.password == password && this.confirmPassword == confirmPassword
      ensures this.name == name && this.profession == profession
      ensures loading == old(loading) && error == old(error) && success == old(success)
      ensures showPassword == old(showPassword) && showConfirmPassword == old(showConfirmPassword)
    {
      this.email := email;
      this.password := password;
      this.confirmPassword := confirmPassword;
      this.name := name;
      this.profession := profession;
    }

    /** The prefill effect: an open sign-up form copies the onboarding data; a
        sign-in form clears name and profession, and the email only when there is
        no onboarding data. */
    method Prefill(isOpen: bool, mode: AuthMode, data: Option<OnboardingData>)
      modifies this
      ensures isOpen && mode == SignUp && data.Some? ==>
        name == data.value.name && email == data.value.email && profession == data.value.profession
      ensures mode == SignIn ==>
        name == "" && profession == "" && email == (if data.None? then "" else old(email))
      ensures !(isOpen && data.Some?) && mode == SignUp ==>
        name == old(name) && email == old(email) && profession == old(profession)
      ensures password == old(password) && confirmPassword == old(confirmPassword)
      ensures loading == old(loading) && error == old(error) && success == old(success)
      ensures showPassword == old(showPassword) && showConfirmPassword == old(showConfirmPassword)
    {
      if isOpen && mode == SignUp && data.Some? {
        name := data.value.name;
        email := data.value.email;
        profession := data.value.profession;
      } else if mode == SignIn {
        name := "";
        profession := "";
        if data.None? {
          email := "";
        }
      }
    }

    /** `handleSubmit` up to the awaited call: the flags are cleared and loading goes
        up; a sign-up that fails a check sets its message, calls nothing and ends
        with loading down (the `finally`). */
    method BeginSubmit(mode: AuthMode) returns (call: Call)
      modifies this
      ensures mode == SignIn ==> call == CallSignIn(email, password) && loading && error.None?
      ensures mode == SignUp && SignUpCheck(name, profession, password, confirmPassword).Some? ==>
        call == NoCall && !loading && error == SignUpCheck(name, profession, password, confirmPassword)
      ensures mode == SignUp && SignUpCheck(name, profession, password, confirmPassword).None? ==>
        call == CallSignUp(email, password, name, profession) && loading && error.None?
      ensures success.None?
      ensures email == old(email) && password == old(password) && confirmPassword == old(confirmPassword)
      ensures name == old(name) && profession == old(profession)
      ensures showPassword == old(showPassword) && showConfirmPassword == old(showConfirmPassword)
    {
      loading := true;
      error := None;
      success := None;
      if mode == SignIn {
        call := CallSignIn(email, password);
      } else {
        var problem := SignUpCheck(name, profession, password, confirmPassword);
        if problem.Some? {
          error := problem;
          loading := false;
          call := NoCall;
        } else {
          call := CallSignUp(email, password, name, profession);
        }
      }
    }

    /** `handleSubmit` after the awaited call: success sets the mode's success message
        and schedules the close, an error sets the mode's error message, a throw sets
        the generic one; loading goes down on every path. */
    method EndSubmit(mode: AuthMode, outcome: CallOutcome) returns (closeLater: bool)
      modifies this
      ensures !loading
      ensures closeLater <==> outcome == Succeeded
      ensures outcome == Succeeded ==>
        error == old(error) && success == Some(if mode == SignIn then SignInDone else SignUpDone)
      ensures outcome == Failed ==>
        success == old(success) && error == Some(if mode == SignIn then SignInFailed else SignUpFailed)
      ensures outcome == Threw ==> success == old(success) && error == Some(UnexpectedError)
      ensures email == old(email) && password == old(password) && confirmPassword == old(confirmPassword)
      ensures name == old(name) && profession == old(profession)
      ensures showPassword == old(showPassword) && showConfirmPassword == old(showConfirmPassword)
    {
      closeLater := false;
      match outcome {
        case Succeeded =>
          success := Some(if mode == SignIn then SignInDone else SignUpDone);
          closeLater := true;
        case Failed =>
          error := Some(if mode == SignIn then SignInFailed else SignUpFailed);
        case Threw =>
          error := Some(UnexpectedError);
      }
      loading := false;
    }

    /** `resetForm`: the five fields, both messages and both visibility toggles. */
    method ResetForm()
      modifies this
      ensures Cleared() && loading == old(loading)
    {
      email := "";
      password := "";
      confirmPassword := "";
      name := "";
      profession := "";
      error := None;
      success := None;
      showPassword := false;
      showConfirmPassword := false;
    }

    /** `handleModeChange`: the form is reset, then the new mode goes to the parent. */
    method ChangeMode(newMode: AuthMode) returns (notified: AuthMode)
      modifies this
      ensures Cleared() && loading == old(loading) && notified == newMode
    {
      ResetForm();
      notified := newMode;
    }

    /** The submit button is disabled once a success message is shown, and, as the
        shared button adds its `loading` flag, while a submit is pending. */
    function SubmitDisabled(): (d: bool)
      reads this
      ensures d <==> success.Some? || loading
    {
      success != None || loading
    }

    /** The browser's constraint validation of the form's `required` inputs: it
        submits only when the email and password are non-empty and, in sign-up
        mode, the name, profession and confirmation too. */
    predicate RequiredFilled(mode: AuthMode)
      reads this
    {
      email != "" && password != ""
      && (mode == SignUp ==> name != "" && profession != "" && confirmPassword != "")
    }

    /** A sign-up the browser lets through never fails the missing-fields check:
        its first possible failure is the password mismatch. */
    lemma RequiredHidesMissingFields()
      requires RequiredFilled(SignUp)
      ensures SignUpCheck(name, profession, password, confirmPassword) != Some(MissingFields)
      ensures SignUpCheck(name, profession, password, confirmPassword).Some? ==>
        SignUpCheck(name, profession, password, confirmPassword) == Some(PasswordMismatch) ||
        SignUpCheck(name, profession, password, confirmPassword) == Some(PasswordTooShort)
    {
    }
  }

  /** The mode switch link: the other mode. */
  function OtherMode(mode: AuthMode): (m: AuthMode)
    ensures m != mode
  {
    if mode == SignIn then SignUp else SignIn
  }
}
