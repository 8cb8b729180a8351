/** Values shared by the controller, the auth store and the router. */
module Common {

  /** A value that may be absent: PHP's and JavaScript's `null`. */
  datatype Option<+T> = None | Some(value: T)

  /** HTTP status codes that both the API and the client compare against. */
  const OK := 200
  const CREATED := 201
}
