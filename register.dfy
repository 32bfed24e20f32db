/**
 * The registration screen: five text fields, an error modal, the
 * `handleNext` rule chain (presence, e-mail format, password length,
 * confirmation) and the mapping of the create request's outcome.
 */
module Register {
  import opened Remote
  import opened Credentials

  const CreateFailedMessage := "Hubo un problema al crear el usuario. Inténtalo de nuevo."

  /** The five fields of the form. */
  datatype Registration = Registration(
    nombre: string, apellido: string, email: string, password: string, confirmPassword: string)

  /** The form breaks rule `v`. */
  predicate Violates(f: Registration, v: Violation) {
    match v
    case MissingField =>
      f.nombre == "" || f.apellido == "" || f.email == "" || f.password == "" || f.confirmPassword == ""
    case InvalidEmail => !IsValidEmail(f.email)
    case ShortPassword => !IsValidPassword(f.password)
    case PasswordMismatch => f.password != f.confirmPassword
  }

  /** The local checks of `handleNext`, as its early returns order them. */
  function CheckRegistration(f: Registration): (r: Option<Violation>)
    ensures r.Some? ==> Violates(f, r.value)
  {
    if f.nombre == "" || f.apellido == "" || f.email == "" || f.password == "" || f.confirmPassword == "" then
      Some(MissingField)
    else if !IsValidEmail(f.email) then Some(InvalidEmail)
    else if !IsValidPassword(f.password) then Some(ShortPassword)
    else if f.password != f.confirmPassword then Some(PasswordMismatch)
    else None
  }

  /**
   * Fixed precedence: `CheckRegistration` reports exactly the first broken
   * rule even when several are broken, and nothing when none is.
   */
  lemma CheckRegistrationIsFirstViolation(f: Registration, v: Violation)
    ensures CheckRegistration(f) == Some(v) <==>
            Violates(f, v) && forall w :: Rank(w) < Rank(v) ==> !Violates(f, w)
    ensures CheckRegistration(f) == None <==> forall w :: !Violates(f, w)
  {
    if Violates(f, v) && forall w :: Rank(w) < Rank(v) ==> !Violates(f, w) {
      match v
      case MissingField =>
      case InvalidEmail => assert !Violates(f, MissingField);
      case ShortPassword => assert !Violates(f, MissingField) && !Violates(f, InvalidEmail);
      case PasswordMismatch =>
        assert !Violates(f, MissingField) && !Violates(f, InvalidEmail) && !Violates(f, ShortPassword);
    }
    if CheckRegistration(f) == Some(v) {
      forall w | Rank(w) < Rank(v) ensures !Violates(f, w) {
      }
    }
    if forall w :: !Violates(f, w) {
      assert !Violates(f, MissingField) && !Violates(f, InvalidEmail);
      assert !Violates(f, ShortPassword) && !Violates(f, PasswordMismatch);
    }
  }

  /** What `handleNext` does with the form and, when it sends one, the create request's outcome. */
  function RegisterResult(f: Registration, response: Outcome): (h: Handled)
    ensures h.request.Some? <==> CheckRegistration(f).None?
    ensures h.request.Some? ==> h.request.value == CreateUserRequest(f.nombre, f.apellido, f.email, f.password)
    ensures h.navigation.Some? <==> h.request.Some? && response in {Status(200), Status(201)}
    ensures h.navigation.Some? ==> h.navigation.value == Navigate(ConfirmIdentity(f.email), 0)
    ensures h.alert.Some? <==> CheckRegistration(f).Some? || (h.request.Some? && response.TransportError?)
    ensures CheckRegistration(f).Some? ==> h.alert == Some(Message(CheckRegistration(f).value))
    ensures h.request.Some? && response.TransportError? ==> h.alert == Some(CreateFailedMessage)
  {
    match CheckRegistration(f)
    case Some(v) => Handled(None, Some(Message(v)), None)
    case None =>
      var request := Some(CreateUserRequest(f.nombre, f.apellido, f.email, f.password));
      match response
      case Status(code) =>
        if code == 200 || code == 201 then Handled(request, None, Some(Navigate(ConfirmIdentity(f.email), 0)))
        else Handled(request, None, None)
      case TransportError => Handled(request, Some(CreateFailedMessage), None)
  }

  /** A short password is reported as such even when the confirmation also differs. */
  lemma ShortPasswordBeforeMismatch(f: Registration, response: Outcome)
    requires !Violates(f, MissingField) && IsValidEmail(f.email)
    requires !IsValidPassword(f.password) && f.password != f.confirmPassword
    ensures RegisterResult(f, response) == Handled(None, Some(Message(ShortPassword)), None)
  {
  }

  /** A response with any status other than 200 or 201 neither navigates nor raises an alert. */
  lemma OtherStatusIsSilent(f: Registration, code: nat)
    requires CheckRegistration(f).None? && code != 200 && code != 201
    ensures RegisterResult(f, Status(code)).alert.None?
    ensures RegisterResult(f, Status(code)).navigation.None?
  {
  }

  /** A form that passes every check has a valid e-mail and a password of at least 8 code units, confirmed. */
  lemma AcceptedFormIsValid(f: Registration)
    requires CheckRegistration(f).None?
    ensures IsValidEmail(f.email) && IsValidPassword(f.password) && f.password == f.confirmPassword
    ensures f.nombre != "" && f.apellido != ""
  {
  }

  /** The registration screen's state: the form and the error modal. */
  class RegisterScreen {
    var form: Registration
    var modalVisible: bool
    var errorMessage: string

    /** Seven `useState` hooks with their initial values (the password toggles are left out). */
    constructor ()
      ensures form == Registration("", "", "", "", "") && !modalVisible && errorMessage == ""
    {
      form := Registration("", "", "", "", "");
      modalVisible, errorMessage := false, "";
    }

    /** `onChangeText={setNombre}`. */
    method ChangeNombre(text: string)
      modifies this`form
      ensures form == old(form).(nombre := text)
    {
      form := form.(nombre := text);
    }

    /** `onChangeText={setApellido}`. */
    method ChangeApellido(text: string)
      modifies this`form
      ensures form == old(form).(apellido := text)
    {
      form := form.(apellido := text);
    }

    /** `onChangeText={setEmail}`. */
    method ChangeEmail(text: string)
      modifies this`form
      ensures form == old(form).(email := text)
    {
      form := form.(email := text);
    }

    /** `onChangeText={setPassword}`. */
    method ChangePassword(text: string)
      modifies this`form
      ensures form == old(form).(password := text)
    {
      form := form.(password := text);
    }

    /** `onChangeText={setConfirmPassword}`. */
    method ChangeConfirmPassword(text: string)
      modifies this`form
      ensures form == old(form).(confirmPassword := text)
    {
      form := form.(confirmPassword := text);
    }

    /**
     * `handleNext`, with `response` the outcome the create request would
     * have; it is consulted only when the request is sent.
     */
    method HandleNext(response: Outcome) returns (request: Option<Request>, navigation: Option<Navigation>)
      modifies this`modalVisible, this`errorMessage
      ensures var h := RegisterResult(form, response);
        && request == h.request && navigation == h.navigation
        && if h.alert.Some? then modalVisible && errorMessage == h.alert.value
           else modalVisible == old(modalVisible) && errorMessage == old(errorMessage)
    {
      var f := form;
      if f.nombre == "" || f.apellido == "" || f.email == "" || f.password == "" || f.confirmPassword == "" {
        errorMessage := Message(MissingField);
        modalVisible := true;
        return None, None;
      }
      if !IsValidEmail(f.email) {
        errorMessage := Message(InvalidEmail);
        modalVisible := true;
        return None, None;
      }
      if !IsValidPassword(f.password) {
        errorMessage := Message(ShortPassword);
        modalVisible := true;
        return None, None;
      }
      if f.password != f.confirmPassword {
        errorMessage := Message(PasswordMismatch);
        modalVisible := true;
        return None, None;
      }
      request := Some(CreateUserRequest(f.nombre, f.apellido, f.email, f.password));
      navigation := None;
      match response
      case Status(code) =>
        if code == 200 || code == 201 {
          navigation := Some(Navigate(ConfirmIdentity(f.email), 0));
        }
      case TransportError =>
        errorMessage := CreateFailedMessage;
        modalVisible := true;
    }

    /** The error modal's close button and back gesture: `setModalVisible(!modalVisible)`. */
    method ToggleModal()
      modifies this`modalVisible
      ensures modalVisible == !old(modalVisible)
    {
      modalVisible := !modalVisible;
    }
  }
}
