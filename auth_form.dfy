/** The sign-in page (frontend/src/components/Auth.jsx): login and sign-up
    on one form, and a three-step password reset (request a one-time code,
    verify it, set the new password). Each handler is one atomic step that
    takes the remote call's outcome as a parameter; `loading` is true only
    while a call is in flight, so it is false between steps. */
module AuthPage {
  import opened Common
  import opened Auth

  /** The login reply body `{ token, customer }`. */
  datatype LoginReply = LoginReply(token: string, customer: Option<Customer>)

  /** What follows a successful login: the caller's onSuccess callback, or
      a redirect to /home after 1.5 seconds. */
  datatype AfterSubmit = Stay | CallOnSuccess(customer: Option<Customer>) | RedirectHome

  const LoginDone: string := "Login successful!"
  const RegisterDone: string := "Registration successful! Please log in."
  const UnexpectedError: string := "An unexpected error occurred."
  const OtpSent: string := "OTP sent to your email."
  const OtpSendFailed: string := "Failed to send OTP."
  const OtpVerified: string := "OTP verified! Set your new password."
  const OtpInvalid: string := "Invalid or expired OTP."
  const PasswordsDiffer: string := "Passwords do not match."
  const ResetDone: string := "Password reset successful! Redirecting to login."
  const ResetFailed: string := "Failed to reset password."
  const RedirectDelayMs: int := 1500

  datatype ResetInputs = ResetInputs(resetEmail: string, otp: string, tempToken: string, newPassword: string, confirmPassword: string)

  class AuthForm {
    var isLogin: bool
    var name: string
    var email: string
    var password: string
    var error: string
    var success: string
    var loading: bool
    /** 0: the login / sign-up form; 1, 2, 3: the reset steps. */
    var forgotPasswordStep: int
    var resetEmail: string
    var otp: string
    var tempToken: string
    var newPassword: string
    var confirmPassword: string

    function Reset(): ResetInputs
      reads this
    {
      ResetInputs(resetEmail, otp, tempToken, newPassword, confirmPassword)
    }

    /** The reset steps are entered only from the login form and left only
        for it, so while one shows the form is in login mode. */
    ghost predicate Valid()
      reads this
    {
      0 <= forgotPasswordStep <= 3 && (forgotPasswordStep > 0 ==> isLogin) && !loading
    }

    constructor ()
      ensures Valid() && isLogin && forgotPasswordStep == 0
      ensures name == "" && email == "" && password == "" && error == "" && success == ""
      ensures Reset() == ResetInputs("", "", "", "", "")
    {
      isLogin := true;
      name, email, password := "", "", "";
      error, success := "", "";
      loading := false;
      forgotPasswordStep := 0;
      resetEmail, otp, tempToken, newPassword, confirmPassword := "", "", "", "", "";
    }

    /** The login / sign-up submit, shown at step 0. A login stores the
        token and the customer in the container; a sign-up switches the form
        to login mode; a failure shows the server's message or the
        default. */
    method HandleSubmit(auth: AuthStore, reply: Reply<LoginReply>, hasOnSuccess: bool) returns (next: AfterSubmit)
      requires Valid() && forgotPasswordStep == 0 && auth.Valid()
      modifies this, auth
      ensures Valid() && auth.Valid() && forgotPasswordStep == 0
      ensures name == old(name) && email == old(email) && password == old(password) && Reset() == old(Reset())
      ensures old(isLogin) && reply.Ok? ==>
        auth.token == reply.body.token && auth.user == reply.body.customer
        && isLogin && success == LoginDone && error == ""
        && next == (if hasOnSuccess then CallOnSuccess(reply.body.customer) else RedirectHome)
      ensures !old(isLogin) && reply.Ok? ==>
        unchanged(auth) && isLogin && success == RegisterDone && error == "" && next == Stay
      ensures reply.Failed? ==>
        unchanged(auth) && isLogin == old(isLogin) && success == "" && error == OrElse(reply.message, UnexpectedError)
        && next == Stay
    {
      loading := true;
      error := "";
      success := "";
      next := Stay;
      match reply {
        case Ok(body) =>
          if isLogin {
            auth.UpdateToken(body.token);
            auth.UpdateUser(body.customer);
            success := LoginDone;
            if hasOnSuccess {
              next := CallOnSuccess(body.customer);
            } else {
              next := RedirectHome;
            }
          } else {
            success := RegisterDone;
            isLogin := true;
          }
        case Failed(message) =>
          error := OrElse(message, UnexpectedError);
      }
      loading := false;
    }

    /** The "Forgot password?" link under the login form. */
    method OpenForgotPassword()
      requires Valid() && isLogin && forgotPasswordStep == 0
      modifies this
      ensures Valid() && forgotPasswordStep == 1
      ensures isLogin && error == old(error) && success == old(success)
      ensures name == old(name) && email == old(email) && password == old(password) && Reset() == old(Reset())
    {
      forgotPasswordStep := 1;
    }

    /** The "Sign up" / "Login" link under the step-0 form. */
    method ToggleMode()
      requires Valid() && forgotPasswordStep == 0
      modifies this
      ensures Valid() && forgotPasswordStep == 0
      ensures isLogin == !old(isLogin) && error == old(error) && success == old(success)
      ensures name == old(name) && email == old(email) && password == old(password) && Reset() == old(Reset())
    {
      isLogin := !isLogin;
    }

    /** Step 1: ask the server to mail a one-time code to `resetEmail`. */
    method HandleForgotPasswordRequest(reply: Reply<()>)
      requires Valid() && forgotPasswordStep == 1
      modifies this
      ensures Valid() && isLogin == old(isLogin)
      ensures name == old(name) && email == old(email) && password == old(password) && Reset() == old(Reset())
      ensures reply.Ok? ==> forgotPasswordStep == 2 && success == OtpSent && error == ""
      ensures reply.Failed? ==>
        forgotPasswordStep == 1 && success == "" && error == OrElse(reply.message, OtpSendFailed)
    {
      loading := true;
      error := "";
      success := "";
      if reply.Ok? {
        success := OtpSent;
        forgotPasswordStep := 2;
      } else {
        error := OrElse(reply.message, OtpSendFailed);
      }
      loading := false;
    }

    /** Step 2: verify the code; the reply's token authorises the reset. */
    method HandleVerifyOtp(reply: Reply<string>)
      requires Valid() && forgotPasswordStep == 2
      modifies this
      ensures Valid() && isLogin == old(isLogin) && name == old(name) && email == old(email) && password == old(password)
      ensures reply.Ok? ==>
        forgotPasswordStep == 3 && success == OtpVerified && error == ""
        && Reset() == old(Reset()).(tempToken := reply.body)
      ensures reply.Failed? ==>
        forgotPasswordStep == 2 && success == "" && error == OrElse(reply.message, OtpInvalid)
        && Reset() == old(Reset())
    {
      loading := true;
      error := "";
      success := "";
      if reply.Ok? {
        success := OtpVerified;
        tempToken := reply.body;
        forgotPasswordStep := 3;
      } else {
        error := OrElse(reply.message, OtpInvalid);
      }
      loading := false;
    }

    /** Step 3 once both entries agree: the reset call's outcome. */
    method SubmitNewPassword(reply: Reply<()>)
      requires Valid() && forgotPasswordStep == 3 && newPassword == confirmPassword
      modifies this
      ensures Valid() && isLogin && name == old(name) && email == old(email) && password == old(password)
      ensures reply.Ok? ==>
        forgotPasswordStep == 0 && success == ResetDone && error == "" && Reset() == ResetInputs("", "", "", "", "")
      ensures reply.Failed? ==>
        forgotPasswordStep == 3 && success == "" && error == OrElse(reply.message, ResetFailed)
        && Reset() == old(Reset())
    {
      loading := true;
      if reply.Ok? {
        error, success := "", ResetDone;
        forgotPasswordStep, isLogin := 0, true;
        resetEmail, otp, tempToken, newPassword, confirmPassword := "", "", "", "", "";
      } else {
        error, success := OrElse(reply.message, ResetFailed), "";
      }
      loading := false;
    }

    /** Step 3: set the new password. Two different entries are refused
        before any call (the `reply` is then never produced); success
        returns to the login form and clears the reset inputs. */
    method HandleResetPassword(reply: Reply<()>)
      requires Valid() && forgotPasswordStep == 3
      modifies this
      ensures Valid() && isLogin && name == old(name) && email == old(email) && password == old(password)
      ensures old(newPassword) != old(confirmPassword) ==>
        forgotPasswordStep == 3 && success == "" && error == PasswordsDiffer && Reset() == old(Reset())
      ensures old(newPassword) == old(confirmPassword) && reply.Ok? ==>
        forgotPasswordStep == 0 && success == ResetDone && error == "" && Reset() == ResetInputs("", "", "", "", "")
      ensures old(newPassword) == old(confirmPassword) && reply.Failed? ==>
        forgotPasswordStep == 3 && success == "" && error == OrElse(reply.message, ResetFailed)
        && Reset() == old(Reset())
    {
      if newPassword != confirmPassword {
        error, success := PasswordsDiffer, "";
        return;
      }
      SubmitNewPassword(reply);
    }
  }
}
