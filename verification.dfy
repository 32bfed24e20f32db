/**
 * The two-factor verification screen reached after login: a code buffer,
 * an alert, `handleSubmit` (verify the pin, then go home) and
 * `handleResend`.
 */
module Verification {
  import opened Remote
  import opened Otp

  const VerifiedMessage := "Verificación exitosa."
  const WrongCodeMessage := "Código incorrecto."
  const VerifyFailedMessage := "Hubo un error al verificar el código."
  const ResentMessage := "Código reenviado con éxito."
  const ResendFailedMessage := "Hubo un error al reenviar el código."

  /** What `handleSubmit` does, given the verify request's outcome. */
  function SubmitResult(email: string, code: seq<string>, response: Outcome): (h: Handled)
    ensures h.request == Some(VerifyRequest(email, Join(code)))
    ensures h.navigation.Some? <==> response == Status(200)
    ensures h.navigation.Some? ==> h.navigation.value == Navigate(Home, 0)
    ensures h.alert.Some?
    ensures h.alert.value == VerifiedMessage <==> response == Status(200)
  {
    var request := Some(VerifyRequest(email, Join(code)));
    match response
    case Status(200) => Handled(request, Some(VerifiedMessage), Some(Navigate(Home, 0)))
    case Status(_) => Handled(request, Some(WrongCodeMessage), None)
    case TransportError => Handled(request, Some(VerifyFailedMessage), None)
  }

  /** What `handleResend` does, given the resend request's outcome. */
  function ResendResult(email: string, response: Outcome): (h: Handled)
    ensures h.request == Some(ResendTwoFactorRequest(email))
    ensures h.navigation.None? && h.alert.Some?
    ensures h.alert.value == ResentMessage <==> response.Status?
  {
    var request := Some(ResendTwoFactorRequest(email));
    match response
    case Status(_) => Handled(request, Some(ResentMessage), None)
    case TransportError => Handled(request, Some(ResendFailedMessage), None)
  }

  /** A wrong code and a thrown error raise different alerts; only status 200 leaves the screen. */
  lemma SubmitFailuresDiffer(email: string, code: seq<string>, status: nat)
    requires status != 200
    ensures SubmitResult(email, code, Status(status)).alert == Some(WrongCodeMessage)
    ensures SubmitResult(email, code, TransportError).alert == Some(VerifyFailedMessage)
    ensures WrongCodeMessage != VerifyFailedMessage
    ensures SubmitResult(email, code, Status(status)).navigation.None?
  {
  }

  /** The verification screen's state. */
  class VerificationScreen {
    const email: string
    const code: CodeBuffer
    var alertVisible: bool
    var alertMessage: string

    ghost predicate Valid()
      reads this, code, code.slots
    {
      code.Valid()
    }

    /** The screen as mounted: `route.params.email`, four empty slots, no alert. */
    constructor (routeEmail: string)
      ensures Valid() && fresh(code) && fresh(code.slots)
      ensures email == routeEmail && code.slots[..] == EmptyCode()
      ensures !alertVisible && alertMessage == ""
    {
      email := routeEmail;
      code := new CodeBuffer();
      alertVisible, alertMessage := false, "";
    }

    /** `handleInputChange(index, value)`. */
    method HandleInputChange(index: nat, value: string)
      requires Valid() && index < Size
      modifies code.slots
      ensures Valid()
      ensures code.slots[..] == Written(old(code.slots[..]), index, value)
    {
      code.Set(index, value);
    }

    /** `handleClear`. */
    method HandleClear()
      requires Valid()
      modifies code.slots
      ensures Valid() && code.slots[..] == EmptyCode()
    {
      code.Clear();
    }

    /** `handleSubmit`, with `response` the outcome of the verify request. */
    method HandleSubmit(response: Outcome) returns (request: Option<Request>, navigation: Option<Navigation>)
      requires Valid()
      modifies this`alertVisible, this`alertMessage
      ensures var h := SubmitResult(email, code.slots[..], response);
        request == h.request && navigation == h.navigation && alertVisible && alertMessage == h.alert.value
    {
      var pin := code.Submission();
      request := Some(VerifyRequest(email, pin));
      navigation := None;
      match response
      case Status(status) =>
        if status == 200 {
          alertMessage := VerifiedMessage;
          alertVisible := true;
          navigation := Some(Navigate(Home, 0));
        } else {
          alertMessage := WrongCodeMessage;
          alertVisible := true;
        }
      case TransportError =>
        alertMessage := VerifyFailedMessage;
        alertVisible := true;
    }

    /** `handleResend`, with `response` the outcome of the resend request. */
    method HandleResend(response: Outcome) returns (request: Option<Request>)
      modifies this`alertVisible, this`alertMessage
      ensures var h := ResendResult(email, response);
        request == h.request && alertVisible && alertMessage == h.alert.value
    {
      request := Some(ResendTwoFactorRequest(email));
      match response
      case Status(_) =>
        alertMessage := ResentMessage;
        alertVisible := true;
      case TransportError =>
        alertMessage := ResendFailedMessage;
        alertVisible := true;
    }

    /** `closeAlert`. */
    method CloseAlert()
      modifies this`alertVisible
      ensures !alertVisible
    {
      alertVisible := false;
    }
  }
}
