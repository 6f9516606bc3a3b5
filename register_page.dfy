/** The registration form: the order in which its checks run, the message each failure
    shows, and the loading flag around the register call. */
module RegisterPage {
  import opened Wrappers
  import opened Text
  import opened Helpers

  const FillInAllFields := "Please fill in all fields"
  const InvalidEmail := "Please enter a valid email address"
  const PasswordsDiffer := "Passwords do not match"

  /** What a submission leads to: an error toast, or the register call with the raw email,
      password and username. */
  datatype Submission = Rejected(message: string) | Register(email: string, password: string, username: string)

  /** `handleSubmit`'s checks, first failure wins. The validators and the password comparison
      see the fields as typed; only the blank test trims. */
  function CheckRegistration(email: string, username: string, password: string, confirmPassword: string)
    : (r: Submission)
    ensures r.Register? <==> !AllSpace(email) && !AllSpace(username) && !AllSpace(password)
                             && !AllSpace(confirmPassword) && ValidateEmail(email)
                             && ValidateUsername(username) == Valid && ValidatePassword(password) == Valid
                             && password == confirmPassword
    ensures r.Register? ==> r == Register(email, password, username)
    ensures AllSpace(email) || AllSpace(username) || AllSpace(password) || AllSpace(confirmPassword)
            ==> r == Rejected(FillInAllFields)
    // With every field filled, the email is reported before the username, the username before
    // the password, and the password before the confirmation.
    ensures !AllSpace(email) && !AllSpace(username) && !AllSpace(password) && !AllSpace(confirmPassword) ==>
              && (!ValidateEmail(email) ==> r == Rejected(InvalidEmail))
              && (ValidateEmail(email) && ValidateUsername(username).Invalid?
                  ==> r == Rejected(ValidateUsername(username).message))
              && (ValidateEmail(email) && ValidateUsername(username) == Valid && ValidatePassword(password).Invalid?
                  ==> r == Rejected(ValidatePassword(password).message))
              && ((ValidateEmail(email) && ValidateUsername(username) == Valid && ValidatePassword(password) == Valid
                   && password != confirmPassword) ==> r == Rejected(PasswordsDiffer))
  {
    if IsBlank(email) || IsBlank(username) || IsBlank(password) || IsBlank(confirmPassword) then
      Rejected(FillInAllFields)
    else if !ValidateEmail(email) then Rejected(InvalidEmail)
    else if ValidateUsername(username).Invalid? then Rejected(ValidateUsername(username).message)
    else if ValidatePassword(password).Invalid? then Rejected(ValidatePassword(password).message)
    else if password != confirmPassword then Rejected(PasswordsDiffer)
    else Register(email, password, username)
  }

  /** The error toast after a failed call: the server's message when it has a non-empty one,
      otherwise the page's fallback. */
  function FailureMessage(serverMessage: Option<string>, fallback: string): (r: string)
    ensures serverMessage.Some? && serverMessage.value != "" ==> r == serverMessage.value
    ensures serverMessage.None? || serverMessage.value == "" ==> r == fallback
  {
    if serverMessage.Some? && serverMessage.value != "" then serverMessage.value else fallback
  }

  class RegisterForm {
    var email: string
    var username: string
    var password: string
    var confirmPassword: string
    var loading: bool

    constructor ()
      ensures email == "" && username == "" && password == "" && confirmPassword == "" && !loading
    {
      email := "";
      username := "";
      password := "";
      confirmPassword := "";
      loading := false;
    }

    /** The synchronous part of `handleSubmit`: the checks, and `loading` set when the
        register call goes out. */
    method BeginSubmit() returns (s: Submission)
      modifies this
      ensures s == CheckRegistration(email, username, password, confirmPassword)
      ensures loading == (s.Register? || old(loading))
      ensures email == old(email) && username == old(username) && password == old(password)
      ensures confirmPassword == old(confirmPassword)
    {
      s := CheckRegistration(email, username, password, confirmPassword);
      if s.Register? {
        loading := true;
      }
    }

    /** The `finally` after the register call, whatever its outcome; returns the toast shown. */
    method FinishSubmit(succeeded: bool, serverMessage: Option<string>) returns (toast: string)
      modifies this
      ensures !loading
      ensures succeeded ==> toast == "Account created successfully!"
      ensures !succeeded ==> toast == FailureMessage(serverMessage, "Registration failed")
      ensures email == old(email) && username == old(username) && password == old(password)
      ensures confirmPassword == old(confirmPassword)
    {
      toast := if succeeded then "Account created successfully!" else FailureMessage(serverMessage, "Registration failed");
      loading := false;
    }
  }
}
