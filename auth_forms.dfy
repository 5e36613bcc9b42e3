/** The sign-in and registration screens: a submission runs only when every
    field rule passes, sets the loading flag around the session call, and
    moves on only when the call reports success. */
module AuthForms {
  import opened Common
  import opened Entities
  import opened Validation
  import Session
  import Routes

  /** The data the registration screen hands to the session: the phone and
      the genres are left for later. */
  function RegistrationData(name: string, email: string, password: string): (r: Session.RegisterData)
    ensures r.name == name && r.email == email && r.password == password
    ensures r.phone == [] && r.favoriteGenres == []
  {
    Session.RegisterData(name, email, "", password, [])
  }

  /** `handleSubmit`'s gate on the sign-in screen: both field rules pass. */
  method CheckLogin(email: string, password: string) returns (valid: bool)
    ensures valid <==> EmailError(email).None? && PasswordError(password).None?
    ensures valid <==> IsEmail(email) && |password| >= 6
  {
    valid := EmailError(email).None? && PasswordError(password).None?;
  }

  /** `handleSubmit`'s gate on the registration screen: all four field rules
      pass. */
  method CheckRegistration(name: string, email: string, password: string, confirm: string)
    returns (valid: bool)
    ensures valid <==> NameError(name).None? && EmailError(email).None?
                       && PasswordError(password).None? && ConfirmError(confirm, password).None?
    ensures valid ==> |name| >= 2 && IsEmail(email) && |confirm| >= 6 && confirm == password
  {
    valid := NameError(name).None? && EmailError(email).None?
             && PasswordError(password).None? && ConfirmError(confirm, password).None?;
  }

  class LoginForm {
    var isLoading: bool
    var navigatedTo: Option<Routes.Path>

    constructor ()
      ensures !isLoading && navigatedTo.None?
    {
      isLoading := false;
      navigatedTo := None;
    }

    /** `onSubmit` behind the field rules: a valid form signs in and moves
        to swiping; an invalid one changes nothing. */
    method Submit(auth: Session.AuthState, email: string, password: string, writeFails: bool)
      returns (submitted: bool)
      modifies this, auth
      requires auth.Synced()
      ensures submitted <==> EmailError(email).None? && PasswordError(password).None?
      ensures submitted <==> IsEmail(email) && |password| >= 6
      ensures !submitted ==> unchanged(this) && unchanged(auth)
      ensures submitted ==> navigatedTo == Some(Routes.Swipe) && !auth.loading
      ensures submitted && !writeFails ==>
                auth.user == Some(Session.MockUser(email)) && auth.stored == Some(Session.Json(Session.MockUser(email)))
      ensures submitted && writeFails ==> auth.user == old(auth.user) && auth.stored == old(auth.stored)
      ensures submitted ==> !isLoading
      ensures auth.Synced()
    {
      var valid := CheckLogin(email, password);
      if !valid {
        return false;
      }
      submitted := true;
      isLoading := true;
      var ok := auth.Login(email, password, writeFails);
      if ok {
        navigatedTo := Some(Routes.Swipe);
      }
      isLoading := false;
    }
  }

  class RegisterForm {
    var isLoading: bool
    var navigatedTo: Option<Routes.Path>

    constructor ()
      ensures !isLoading && navigatedTo.None?
    {
      isLoading := false;
      navigatedTo := None;
    }

    /** `onSubmit` behind the field rules: a valid form registers and moves
        to the verification screen, where the route guard then sees a
        signed-in user and sends them on to swiping. */
    method Submit(auth: Session.AuthState, name: string, email: string, password: string, confirm: string,
                  newId: string, writeFails: bool)
      returns (submitted: bool)
      modifies this, auth
      requires auth.Synced()
      ensures submitted <==> NameError(name).None? && EmailError(email).None?
                             && PasswordError(password).None? && ConfirmError(confirm, password).None?
      ensures !submitted ==> unchanged(this) && unchanged(auth)
      ensures submitted ==> navigatedTo == Some(Routes.Verification) && !auth.loading
      ensures submitted && !writeFails ==>
                && auth.user == Some(Session.NewUser(RegistrationData(name, email, password), newId))
                && auth.stored == Some(Session.Json(Session.NewUser(RegistrationData(name, email, password), newId)))
                && Routes.Resolve(Routes.App, Routes.Verification, false, auth.user) == Some(Routes.Redirect(Routes.Swipe))
                && Routes.Resolve(Routes.Corrected, Routes.Verification, false, auth.user) == Some(Routes.Render)
      ensures submitted && writeFails ==> auth.user == old(auth.user) && auth.stored == old(auth.stored)
      ensures submitted ==> !isLoading
      ensures auth.Synced()
    {
      var valid := CheckRegistration(name, email, password, confirm);
      if !valid {
        return false;
      }
      submitted := true;
      isLoading := true;
      var ok := auth.Register(RegistrationData(name, email, password), newId, writeFails);
      if ok {
        navigatedTo := Some(Routes.Verification);
      }
      isLoading := false;
      if auth.user.Some? {
        Routes.VerificationSkippedAfterRegister(auth.user.value);
        Routes.CorrectedVerificationShown(auth.user.value, Routes.Verification, auth.user, false);
      }
    }
  }
}
