/**
 * The login screen: two text fields, an error modal, the `handleLogin`
 * rule chain (presence, then e-mail format) and the mapping of the login
 * request's outcome to a navigation or an alert.
 */
module Login {
  import opened Remote
  import opened Credentials

  const WrongCredentialsMessage := "Email o contraseña incorrectos."
  const LoginFailedMessage := "Hubo un error al intentar iniciar sesión."

  /** The rule a login form breaks, if any: the first of the two, in this order. */
  predicate Violates(email: string, password: string, v: Violation) {
    match v
    case MissingField => email == "" || password == ""
    case InvalidEmail => !IsValidEmail(email)
    case _ => false
  }

  /** The local checks of `handleLogin`, as its early returns order them. */
  function CheckLogin(email: string, password: string): (r: Option<Violation>)
    ensures r.Some? ==> r.value == MissingField || r.value == InvalidEmail
  {
    if email == "" || password == "" then Some(MissingField)
    else if !IsValidEmail(email) then Some(InvalidEmail)
    else None
  }

  /** `CheckLogin` reports exactly the first broken rule, and nothing when no rule is broken. */
  lemma CheckLoginIsFirstViolation(email: string, password: string, v: Violation)
    ensures CheckLogin(email, password) == Some(v) <==>
            Violates(email, password, v) && forall w :: Rank(w) < Rank(v) ==> !Violates(email, password, w)
    ensures CheckLogin(email, password) == None <==> forall w :: !Violates(email, password, w)
  {
    if v == InvalidEmail && Violates(email, password, v) && forall w :: Rank(w) < Rank(v) ==> !Violates(email, password, w) {
      assert !Violates(email, password, MissingField);
    }
    if forall w :: !Violates(email, password, w) {
      assert !Violates(email, password, MissingField) && !Violates(email, password, InvalidEmail);
    }
  }

  /** What `handleLogin` does with the form and, when it sends one, the login request's outcome. */
  function LoginResult(email: string, password: string, response: Outcome): (h: Handled)
    ensures h.request.Some? <==> CheckLogin(email, password).None?
    ensures h.request.Some? ==> h.request.value == LoginRequest(email, password)
    ensures h.navigation.Some? <==> h.request.Some? && response == Status(200)
    ensures h.navigation.Some? ==> h.navigation.value == Navigate(Verification(email), 0)
    ensures h.alert.Some? <==> h.navigation.None?
    ensures CheckLogin(email, password).Some? ==> h.alert == Some(Message(CheckLogin(email, password).value))
  {
    match CheckLogin(email, password)
    case Some(v) => Handled(None, Some(Message(v)), None)
    case None =>
      var request := Some(LoginRequest(email, password));
      match response
      case Status(200) => Handled(request, None, Some(Navigate(Verification(email), 0)))
      case Status(_) => Handled(request, Some(WrongCredentialsMessage), None)
      case TransportError => Handled(request, Some(LoginFailedMessage), None)
  }

  /** An empty field is reported as missing and sends nothing, whatever the e-mail looks like. */
  lemma PresenceBeforeFormat(email: string, password: string, response: Outcome)
    requires email == "" || password == ""
    ensures LoginResult(email, password, response) == Handled(None, Some(Message(MissingField)), None)
  {
  }

  /** With both fields present, a malformed e-mail is reported as such and sends nothing. */
  lemma MalformedEmailReported(email: string, password: string, response: Outcome)
    requires email != "" && password != "" && !IsValidEmail(email)
    ensures LoginResult(email, password, response) == Handled(None, Some(Message(InvalidEmail)), None)
  {
  }

  /** The password's content and length are never checked: any non-empty one is sent with a valid e-mail. */
  lemma PasswordOnlyNeedsPresence(email: string, password: string, response: Outcome)
    requires IsValidEmail(email) && password != ""
    ensures LoginResult(email, password, response).request == Some(LoginRequest(email, password))
  {
  }

  /** A rejected login and a thrown error raise different alerts, and neither navigates. */
  lemma LoginFailuresDiffer(email: string, password: string, code: nat)
    requires CheckLogin(email, password).None? && code != 200
    ensures LoginResult(email, password, Status(code)).alert != LoginResult(email, password, TransportError).alert
    ensures LoginResult(email, password, Status(code)).navigation.None?
    ensures LoginResult(email, password, TransportError).navigation.None?
  {
  }

  /** The login screen's state: the two fields and the error modal. */
  class LoginScreen {
    var email: string
    var password: string
    var modalVisible: bool
    var errorMessage: string

    /** Four `useState` hooks with their initial values. */
    constructor ()
      ensures email == "" && password == "" && !modalVisible && errorMessage == ""
    {
      email, password, modalVisible, errorMessage := "", "", false, "";
    }

    /** `onChangeText={setEmail}`. */
    method ChangeEmail(text: string)
      modifies this`email
      ensures email == text
    {
      email := text;
    }

    /** `onChangeText={setPassword}`. */
    method ChangePassword(text: string)
      modifies this`password
      ensures password == text
    {
      password := text;
    }

    /** The `resetFields` effect: the route parameter empties both fields. */
    method ApplyRouteParams(resetFields: bool)
      modifies this`email, this`password
      ensures resetFields ==> email == "" && password == ""
      ensures !resetFields ==> email == old(email) && password == old(password)
    {
      if resetFields {
        email := "";
        password := "";
      }
    }

    /**
     * `handleLogin`, with `response` the outcome the login request would
     * have; it is consulted only when the request is sent.
     */
    method HandleLogin(response: Outcome) returns (request: Option<Request>, navigation: Option<Navigation>)
      modifies this`modalVisible, this`errorMessage
      ensures var h := LoginResult(email, password, response);
        && request == h.request && navigation == h.navigation
        && if h.alert.Some? then modalVisible && errorMessage == h.alert.value
           else modalVisible == old(modalVisible) && errorMessage == old(errorMessage)
    {
      if email == "" || password == "" {
        errorMessage := Message(MissingField);
        modalVisible := true;
        return None, None;
      }
      if !IsValidEmail(email) {
        errorMessage := Message(InvalidEmail);
        modalVisible := true;
        return None, None;
      }
      request := Some(LoginRequest(email, password));
      navigation := None;
      if response == Status(200) {
        navigation := Some(Navigate(Verification(email), 0));
      } else if response.Status? {
        errorMessage := WrongCredentialsMessage;
        modalVisible := true;
      } else {
        errorMessage := LoginFailedMessage;
        modalVisible := true;
      }
    }

    /** The error modal's close button and back gesture: `setModalVisible(!modalVisible)`. */
    method ToggleModal()
      modifies this`modalVisible
      ensures modalVisible == !old(modalVisible)
    {
      modalVisible := !modalVisible;
    }
  }
}
