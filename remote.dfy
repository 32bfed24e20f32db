/**
 * What the screens exchange with the outside world: the requests they send
 * to the back end, the outcome each request can have, the routes of the
 * navigation stack, and what a handler leaves behind (a request, an alert,
 * a navigation).
 */
module Remote {

  datatype Option<T> = None | Some(value: T)

  /** How an awaited request ends: a response with an HTTP status, or a thrown error. */
  datatype Outcome = Status(code: nat) | TransportError

  /** One request per back-end operation; the comment names its endpoint. */
  datatype Request =
    | LoginRequest(email: string, password: string)              // POST /user/login
    | CreateUserRequest(nombre: string, apellido: string,
                        email: string, password: string)          // POST /user/create
    | ConfirmRequest(email: string, pin: string)                  // POST /user/confirm
    | ResendPinRequest(email: string)                             // POST /user/resend-pin
    | VerifyRequest(email: string, pin: string)                   // POST /user/login/verify
    | ResendTwoFactorRequest(email: string)                       // POST /user/resend-2fa-pin

  /** The screens of the navigation stack, with their route parameters. */
  datatype Route =
    | Login(resetFields: bool)
    | Register
    | ConfirmIdentity(email: string)
    | Verification(email: string)
    | Home

  /** A call to `navigation.navigate`, issued after `delayMs` milliseconds. */
  datatype Navigation = Navigate(to: Route, delayMs: nat)

  /** What one user action leaves behind. */
  datatype Handled = Handled(request: Option<Request>, alert: Option<string>, navigation: Option<Navigation>)
}
