/** The sign-in screen: validation of the form, the login or register
    request, the loading and error flags, and guest entry. The request is
    recorded as pending when it is made; the server's answer is
    AuthArrived, with the result as a parameter. Storing the user on the
    device is the `stored` field, the `onLogin` calls are `loggedIn`. */
module LoginScreen {
  import opened Types
  import opened Js

  const UsernameRequired: string := "Username is required"
  const PasswordRequired: string := "Password is required"
  const AuthenticationFailed: string := "Authentication failed"
  const GuestToken: string := "guest-token"

  datatype AuthRequest =
    | RegisterRequest(username: string, password: string)
    | LoginRequest(username: string, password: string)

  /** The guest user for a draw `n` of `Math.floor(Math.random() * 100000)`
      and a generated id: named "Guest" and the draw's decimal digits. */
  function GuestUser(n: nat, uuid: string): (u: User)
    requires n < 100000
    ensures u.userId == uuid && u.token == GuestToken
    ensures 6 <= |u.username| <= 10 && u.username[..5] == "Guest"
    ensures forall i :: 5 <= i < |u.username| ==> IsDigit(u.username[i])
    ensures DecimalValue(u.username[5..]) == n
    ensures u.username[5] == '0' ==> n == 0 && |u.username| == 6
  {
    DecimalRoundTrip(n);
    DecimalLength(n, 5);
    var name := "Guest" + DecimalString(n);
    assert name[5..] == DecimalString(n);
    User(uuid, name, GuestToken)
  }

  /** The message an authentication failure shows: the error's own, or the
      fallback when it has none. */
  function FailureMessage(message: string): (r: string)
    ensures r != []
    ensures message != [] ==> r == message
    ensures message == [] ==> r == AuthenticationFailed
  {
    if message == [] then AuthenticationFailed else message
  }

  class LoginForm {
    var isRegister: bool
    var username: string
    var password: string
    var loading: bool
    var error: string
    /** The request waiting for an answer. */
    var pending: Option<AuthRequest>
    /** The user saved on the device. */
    var stored: Option<User>
    /** The users handed to `onLogin`, in order. */
    var loggedIn: seq<User>

    /** The screen is loading exactly while a request is waiting. */
    predicate Valid()
      reads this
    {
      loading <==> pending.Some?
    }

    constructor ()
      ensures Valid()
      ensures !isRegister && username == "" && password == "" && !loading && error == ""
      ensures pending == None && stored == None && loggedIn == []
    {
      isRegister, username, password := false, "", "";
      loading, error := false, "";
      pending, stored, loggedIn := None, None, [];
    }

    /** The username field, which cannot be edited while loading. */
    method EditUsername(value: string)
      modifies this`username
      ensures username == if old(loading) then old(username) else value
    {
      if !loading {
        username := value;
      }
    }

    /** The password field, which cannot be edited while loading. */
    method EditPassword(value: string)
      modifies this`password
      ensures password == if old(loading) then old(password) else value
    {
      if !loading {
        password := value;
      }
    }

    /** The primary button and `handleSubmit` (the button is disabled while
        loading). A blank username is reported before a blank password, and
        neither makes a request. Otherwise the error is cleared, loading
        starts, and register or login is requested with the trimmed
        username and the password as typed. */
    method Submit()
      requires Valid()
      modifies this`error, this`loading, this`pending
      ensures Valid()
      ensures old(loading) ==> error == old(error) && loading && pending == old(pending)
      ensures !old(loading) && AllWhitespace(username) ==>
                error == UsernameRequired && !loading
      ensures !old(loading) && !AllWhitespace(username) && AllWhitespace(password) ==>
                error == PasswordRequired && !loading
      ensures !old(loading) && !AllWhitespace(username) && !AllWhitespace(password) ==>
                && error == "" && loading
                && pending == Some(if isRegister then RegisterRequest(Trim(username), password)
                                   else LoginRequest(Trim(username), password))
    {
      if loading {
        return;
      }
      if Trim(username) == [] {
        error := UsernameRequired;
        return;
      }
      if Trim(password) == [] {
        error := PasswordRequired;
        return;
      }
      loading := true;
      error := "";
      if isRegister {
        pending := Some(RegisterRequest(Trim(username), password));
      } else {
        pending := Some(LoginRequest(Trim(username), password));
      }
    }

    /** The answer to the pending request. A user is stored and then handed
        to `onLogin`; a failure sets the error (the server's message or the
        fallback) and raises the same text as an alert. Loading ends either
        way. */
    method AuthArrived(result: Result<User>) returns (alert: Option<string>)
      requires Valid() && pending.Some?
      modifies this`error, this`loading, this`pending, this`stored, this`loggedIn
      ensures Valid() && !loading && pending == None
      ensures result.Ok? ==>
                stored == Some(result.value) && loggedIn == old(loggedIn) + [result.value]
                && error == old(error) && alert == None
      ensures result.Err? ==>
                stored == old(stored) && loggedIn == old(loggedIn)
                && error == FailureMessage(result.message) && alert == Some(error)
    {
      match result {
        case Ok(u) =>
          stored := Some(u);
          loggedIn := loggedIn + [u];
          alert := None;
        case Err(msg) =>
          error := FailureMessage(msg);
          alert := Some(error);
      }
      loading := false;
      pending := None;
    }

    /** The mode link (disabled while loading): flips between login and
        register, clears the error and the password, keeps the username. */
    method ToggleMode()
      modifies this`isRegister, this`error, this`password
      ensures old(loading) ==>
                isRegister == old(isRegister) && error == old(error) && password == old(password)
      ensures !old(loading) ==> isRegister == !old(isRegister) && error == "" && password == ""
    {
      if !loading {
        isRegister := !isRegister;
        error := "";
        password := "";
      }
    }

    /** "Continue as Guest" (disabled while loading), for the draw `n` and
        the generated id `uuid`: the guest user is stored and handed to
        `onLogin`; the error ends cleared and loading off. */
    method GuestLogin(n: nat, uuid: string)
      requires Valid() && n < 100000
      modifies this`error, this`loading, this`stored, this`loggedIn
      ensures Valid()
      ensures old(loading) ==>
                error == old(error) && loading && stored == old(stored) && loggedIn == old(loggedIn)
      ensures !old(loading) ==>
                && stored == Some(GuestUser(n, uuid)) && loggedIn == old(loggedIn) + [GuestUser(n, uuid)]
                && error == "" && !loading
    {
      if loading {
        return;
      }
      loading := true;
      error := "";
      var guest := GuestUser(n, uuid);
      stored := Some(guest);
      loggedIn := loggedIn + [guest];
      loading := false;
    }
  }
}
