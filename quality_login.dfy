/** The quality officer's sign-in form: local checks on the entered
    credentials, then the reading of the server's reply or error. */
module QualityLogin {
  import opened Api
  import opened Text

  const EMPTY_FIELDS := "Please enter both username and password"
  const SHORT_USERNAME := "Username must be at least 3 characters"
  const SHORT_PASSWORD := "Password must be at least 6 characters"
  const NO_TOKEN := "Authentication token not received. Please try again."
  const LOGIN_FAILED := "Login failed. Please check your credentials."
  const INVALID_CREDENTIALS := "Invalid username or password"
  const ACCESS_DENIED := "Access denied. Please contact administrator."
  const SERVER_ERROR := "Server error. Please try again later."
  const NETWORK_ERROR := "Network error. Please check your connection."
  const OTHER_ERROR := "An error occurred. Please try again."

  const MIN_USERNAME := 3
  const MIN_PASSWORD := 6

  /** What the sign-in reply carries that the form reads. */
  datatype LoginReply = LoginReply(status: Status, code: string, token: Option<string>,
                                   name: Option<string>, message: Option<string>)

  /** The local checks, in order; the first one that fails gives the
      message, and `None` means the request may be sent. */
  function Precheck(emailId: string, password: string): (r: Option<string>)
    ensures emailId == [] || password == [] ==> r == Some(EMPTY_FIELDS)
    ensures emailId != [] && password != [] && Utf16Length(Trim(emailId)) < MIN_USERNAME ==> r == Some(SHORT_USERNAME)
    ensures emailId != [] && password != [] && Utf16Length(Trim(emailId)) >= MIN_USERNAME && Utf16Length(password) < MIN_PASSWORD ==>
      r == Some(SHORT_PASSWORD)
    ensures r.None? <==> emailId != [] && Utf16Length(Trim(emailId)) >= MIN_USERNAME && Utf16Length(password) >= MIN_PASSWORD
  {
    if emailId == [] || password == [] then Some(EMPTY_FIELDS)
    else if Utf16Length(Trim(emailId)) < MIN_USERNAME then Some(SHORT_USERNAME)
    else if Utf16Length(password) < MIN_PASSWORD then Some(SHORT_PASSWORD)
    else None
  }

  /** Credentials that pass the checks have a non-blank username. */
  lemma PrecheckPassedNotBlank(emailId: string, password: string)
    requires Precheck(emailId, password).None?
    ensures !IsBlank(emailId) && password != []
  {
    TrimEmptyIffBlank(emailId);
  }

  /** The message for a failed request, by HTTP status. */
  function ErrorMessage(httpStatus: int, serverMessage: Option<string>): (r: string)
    ensures r != []
    ensures httpStatus == 401 ==> r == INVALID_CREDENTIALS
    ensures httpStatus == 403 ==> r == ACCESS_DENIED
    ensures httpStatus == 500 ==> r == SERVER_ERROR
    ensures httpStatus == 0 ==> r == NETWORK_ERROR
    ensures httpStatus !in {401, 403, 500, 0} ==> r == Or(serverMessage, OTHER_ERROR)
  {
    if httpStatus == 401 then INVALID_CREDENTIALS
    else if httpStatus == 403 then ACCESS_DENIED
    else if httpStatus == 500 then SERVER_ERROR
    else if httpStatus == 0 then NETWORK_ERROR
    else Or(serverMessage, OTHER_ERROR)
  }

  /** A reply lets the officer in exactly when it is a SUCCESS with code
      `'0'` and a token. */
  predicate Accepted(reply: LoginReply) {
    reply.status == SUCCESS && reply.code == "0" && Truthy(reply.token)
  }

  /** The message for a reply that does not let the officer in. */
  function ReplyMessage(reply: LoginReply): (r: string)
    requires !Accepted(reply)
    ensures r != []
    ensures reply.status == SUCCESS && reply.code == "0" ==> r == NO_TOKEN
    ensures !(reply.status == SUCCESS && reply.code == "0") ==> r == Or(reply.message, LOGIN_FAILED)
  {
    if reply.status == SUCCESS && reply.code == "0" then NO_TOKEN
    else Or(reply.message, LOGIN_FAILED)
  }

  class QualityLoginForm {
    var emailId: string
    var password: string
    var errorMsg: string
    var passwordVisible: bool
    var isLoading: bool

    constructor()
      ensures emailId == [] && password == [] && errorMsg == [] && !passwordVisible && !isLoading
    {
      emailId := "";
      password := "";
      errorMsg := "";
      passwordVisible := false;
      isLoading := false;
    }

    /** Flips the visibility; the password input's type follows it. */
    method TogglePasswordVisibility() returns (inputType: string)
      modifies this`passwordVisible
      ensures passwordVisible == !old(passwordVisible)
      ensures inputType == (if passwordVisible then "text" else "password")
    {
      passwordVisible := !passwordVisible;
      inputType := if passwordVisible then "text" else "password";
    }

    /** `login` up to the request: the old error is cleared, a failed check
        sets its message and sends nothing, otherwise loading starts. */
    method Login() returns (send: bool)
      modifies this`errorMsg, this`isLoading
      ensures send <==> Precheck(emailId, password).None?
      ensures !send ==> errorMsg == Precheck(emailId, password).value && isLoading == old(isLoading)
      ensures send ==> errorMsg == [] && isLoading
    {
      errorMsg := "";
      if emailId == [] || password == [] {
        errorMsg := EMPTY_FIELDS;
        return false;
      }
      if Utf16Length(Trim(emailId)) < MIN_USERNAME {
        errorMsg := SHORT_USERNAME;
        return false;
      }
      if Utf16Length(password) < MIN_PASSWORD {
        errorMsg := SHORT_PASSWORD;
        return false;
      }
      isLoading := true;
      send := true;
    }

    /** The sign-in reply: loading ends, and the dashboard opens only for an
        accepted reply; any other reply leaves its message. */
    method OnLoginResponse(reply: LoginReply) returns (navigate: bool)
      modifies this`errorMsg, this`isLoading
      ensures !isLoading
      ensures navigate <==> Accepted(reply)
      ensures navigate ==> errorMsg == old(errorMsg)
      ensures !navigate ==> errorMsg == ReplyMessage(reply)
    {
      isLoading := false;
      if reply.status == SUCCESS && reply.code == "0" {
        if Truthy(reply.token) {
          return true;
        }
        errorMsg := NO_TOKEN;
        return false;
      }
      errorMsg := Or(reply.message, LOGIN_FAILED);
      navigate := false;
    }

    /** A failed request: loading ends and the status's message is shown. */
    method OnLoginError(httpStatus: int, serverMessage: Option<string>)
      modifies this`errorMsg, this`isLoading
      ensures !isLoading && errorMsg == ErrorMessage(httpStatus, serverMessage)
    {
      isLoading := false;
      if httpStatus == 401 {
        errorMsg := INVALID_CREDENTIALS;
      } else if httpStatus == 403 {
        errorMsg := ACCESS_DENIED;
      } else if httpStatus == 500 {
        errorMsg := SERVER_ERROR;
      } else if httpStatus == 0 {
        errorMsg := NETWORK_ERROR;
      } else {
        errorMsg := Or(serverMessage, OTHER_ERROR);
      }
    }

    /** Typing clears any error. */
    method OnInputChange()
      modifies this`errorMsg
      ensures errorMsg == []
    {
      if errorMsg != [] {
        errorMsg := "";
      }
    }
  }
}
