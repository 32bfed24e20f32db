/**
 * The identity-confirmation screen reached after registration: a code
 * buffer, an alert, `handleSubmit` (confirm the account, then return to
 * login after a grace period) and `handleResend`.
 */
module ConfirmIdentity {
  import opened Remote
  import opened Otp

  const ConfirmedMessage := "Usuario confirmado con éxito."
  const ConfirmRejectedMessage := "Error al confirmar usuario."
  const ConfirmFailedMessage := "Hubo un error al confirmar tu identidad."
  const ResentMessage := "Código reenviado con éxito."
  const ResendFailedMessage := "Error al reenviar el código."

  /** The `setTimeout` delay before the return to the login screen. */
  const RedirectDelayMs: nat := 1000

  /** What `handleSubmit` does, given the confirm request's outcome. */
  function SubmitResult(email: string, code: seq<string>, response: Outcome): (h: Handled)
    ensures h.request == Some(ConfirmRequest(email, Join(code)))
    ensures h.navigation.Some? <==> response == Status(200)
    ensures h.navigation.Some? ==> h.navigation.value == Navigate(Login(false), RedirectDelayMs)
    ensures h.alert.Some?
    ensures h.alert.value == ConfirmedMessage <==> response == Status(200)
  {
    var request := Some(ConfirmRequest(email, Join(code)));
    match response
    case Status(200) => Handled(request, Some(ConfirmedMessage), Some(Navigate(Login(false), RedirectDelayMs)))
    case Status(_) => Handled(request, Some(ConfirmRejectedMessage), None)
    case TransportError => Handled(request, Some(ConfirmFailedMessage), None)
  }

  /** What `handleResend` does, given the resend request's outcome. */
  function ResendResult(email: string, response: Outcome): (h: Handled)
    ensures h.request == Some(ResendPinRequest(email))
    ensures h.navigation.None? && h.alert.Some?
    ensures h.alert.value == ResentMessage <==> response.Status?
  {
    var request := Some(ResendPinRequest(email));
    match response
    case Status(_) => Handled(request, Some(ResentMessage), None)
    case TransportError => Handled(request, Some(ResendFailedMessage), None)
  }

  /** A rejected pin and a thrown error raise different alerts; only status 200 leaves the screen. */
  lemma SubmitFailuresDiffer(email: string, code: seq<string>, status: nat)
    requires status != 200
    ensures SubmitResult(email, code, Status(status)).alert != SubmitResult(email, code, TransportError).alert
    ensures SubmitResult(email, code, Status(status)).navigation.None?
  {
  }

  /** The confirmation screen's state. */
  class ConfirmIdentityScreen {
    const email: string
    const code: CodeBuffer
    var alertVisible: bool
    var alertMessage: string

    ghost predicate Valid()
      reads this, code, code.slots
    {
      code.Valid()
    }

    /** The screen as mounted: the route's e-mail, four empty slots, no alert. */
    constructor (routeEmail: string)
      ensures Valid() && fresh(code) && fresh(code.slots)
      ensures email == routeEmail && code.slots[..] == EmptyCode()
      ensures !alertVisible && alertMessage == ""
    {
      email := routeEmail;
      code := new CodeBuffer();
      alertVisible, alertMessage := false, "";
    }

    /** `handleInputChange(index, value)`. */
    method HandleInputChange(index: nat, value: string)
      requires Valid() && index < Size
      modifies code.slots
      ensures Valid()
      ensures code.slots[..] == Written(old(code.slots[..]), index, value)
    {
      code.Set(index, value);
    }

    /** `handleClear`. */
    method HandleClear()
      requires Valid()
      modifies code.slots
      ensures Valid() && code.slots[..] == EmptyCode()
    {
      code.Clear();
    }

    /** `handleSubmit`, with `response` the outcome of the confirm request. */
    method HandleSubmit(response: Outcome) returns (request: Option<Request>, navigation: Option<Navigation>)
      requires Valid()
      modifies this`alertVisible, this`alertMessage
      ensures var h := SubmitResult(email, code.slots[..], response);
        request == h.request && navigation == h.navigation && alertVisible && alertMessage == h.alert.value
    {
      var pin := code.Submission();
      request := Some(ConfirmRequest(email, pin));
      navigation := None;
      match response
      case Status(status) =>
        if status == 200 {
          alertMessage := ConfirmedMessage;
          alertVisible := true;
          navigation := Some(Navigate(Login(false), RedirectDelayMs));
        } else {
          alertMessage := ConfirmRejectedMessage;
          alertVisible := true;
        }
      case TransportError =>
        alertMessage := ConfirmFailedMessage;
        alertVisible := true;
    }

    /** `handleResend`, with `response` the outcome of the resend request. */
    method HandleResend(response: Outcome) returns (request: Option<Request>)
      modifies this`alertVisible, this`alertMessage
      ensures var h := ResendResult(email, response);
        request == h.request && alertVisible && alertMessage == h.alert.value
    {
      request := Some(ResendPinRequest(email));
      if response.Status? {
        alertMessage := ResentMessage;
      } else {
        alertMessage := ResendFailedMessage;
      }
      alertVisible := true;
    }

    /** `closeAlert`. */
    method CloseAlert()
      modifies this`alertVisible
      ensures !alertVisible
    {
      alertVisible := false;
    }
  }
}
