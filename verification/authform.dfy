/**
 * The sign-in / registration form: the ordered validation chain run before
 * registering, and the `error` and `loading` fields it maintains around the
 * awaited session call.
 */
module AuthForm {
  import opened Text
  import BadWords

  const NoUsernameMessage := "Please enter a username"
  const RestrictedMessage := "Username contains restricted language."
  const NoPasswordMessage := "Please enter a password"
  const RegistrationFailedMessage := "Registration failed"
  const LoginFailedMessage := "Login failed"

  /** Outcome of the registration checks: the trimmed name to register, or the first failure. */
  datatype Check = Accepted(name: string) | Rejected(message: string)

  /** What the awaited `login`/`register` call did: resolved to a truthy or falsy value, or threw. */
  datatype CallResult = Resolved(truthy: bool) | Threw(message: string)

  /**
   * The registration checks in their fixed order: empty trimmed name, then
   * restricted language in the trimmed name, then empty password.
   */
  function CheckRegistration(username: string, password: string): (r: Check)
    ensures r == Rejected(NoUsernameMessage) <==> Trim(username) == ""
    ensures r == Rejected(RestrictedMessage) <==> Trim(username) != "" && BadWords.ContainsBadWord(Trim(username))
    ensures r == Rejected(NoPasswordMessage) <==>
      Trim(username) != "" && !BadWords.ContainsBadWord(Trim(username)) && password == ""
    ensures r.Accepted? <==>
      Trim(username) != "" && !BadWords.ContainsBadWord(Trim(username)) && password != ""
    ensures r.Accepted? ==> r.name == Trim(username)
  {
    var name := Trim(username);
    if name == "" then Rejected(NoUsernameMessage)
    else if BadWords.ContainsBadWord(name) then Rejected(RestrictedMessage)
    else if password == "" then Rejected(NoPasswordMessage)
    else Accepted(name)
  }

  /**
   * An accepted name is non-empty, already trimmed, and clean; a name that is
   * only whitespace is rejected for being empty whatever the password.
   */
  lemma AcceptedNameIsClean(username: string, password: string)
    ensures CheckRegistration(username, password).Accepted? ==>
      var n := CheckRegistration(username, password).name;
      n != "" && Trim(n) == n && !BadWords.ContainsBadWord(n) && !IsSpace(n[0])
    ensures AllSpace(username) ==> CheckRegistration(username, password) == Rejected(NoUsernameMessage)
  {
    var name := Trim(username);
    var r := CheckRegistration(username, password);
    if r.Accepted? {
      assert r.name == name && name != "";
      TrimIdempotent(username);
    }
    if AllSpace(username) {
      TrimEmptyIff(username);
      assert name == "";
    }
  }

  /** The error text a finished call leaves behind. */
  function CallError(result: CallResult, failedMessage: string): (e: Option<string>)
    ensures result == Resolved(true) <==> e == None
    ensures result == Resolved(false) ==> e == Some(failedMessage)
    ensures result.Threw? ==> e == Some(result.message)
  {
    match result
    case Resolved(truthy) => if truthy then None else Some(failedMessage)
    case Threw(message) => Some(message)
  }

  class Form {
    var error: Option<string>
    var loading: bool

    constructor ()
      ensures error == None && !loading
    {
      error := None;
      loading := false;
    }

    /**
     * `onLogin`: clears the error, calls login with the trimmed name and the
     * password as typed (no restricted-word check), and records a failure.
     */
    method OnLogin(username: string, password: string, result: CallResult) returns (request: (string, string))
      modifies this
      ensures request == (Trim(username), password)
      ensures error == CallError(result, LoginFailedMessage)
      ensures !loading
    {
      error := None;
      loading := true;
      request := (Trim(username), password);
      error := CallError(result, LoginFailedMessage);
      loading := false;
    }

    /**
     * `onRegister`: clears the error and runs the checks; the first failing
     * check sets its message and nothing is called. Otherwise register is
     * called with the trimmed name and the password as typed.
     */
    method OnRegister(username: string, password: string, result: CallResult) returns (request: Option<(string, string)>)
      modifies this
      ensures CheckRegistration(username, password).Rejected? ==>
        request == None && error == Some(CheckRegistration(username, password).message) && loading == old(loading)
      ensures CheckRegistration(username, password).Accepted? ==>
        && request == Some((Trim(username), password))
        && error == CallError(result, RegistrationFailedMessage)
        && !loading
    {
      error := None;
      var check := CheckRegistration(username, password);
      if check.Rejected? {
        error := Some(check.message);
        request := None;
        return;
      }
      loading := true;
      request := Some((check.name, password));
      error := CallError(result, RegistrationFailedMessage);
      loading := false;
    }
  }
}
