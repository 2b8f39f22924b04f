/** The parts of a Next.js API exchange the handlers read and write: the
    JSON body of the response, its status code and the optional Set-Cookie
    header. */
module Http {

  import opened Wrappers

  /** `res.json({ error })` or `res.json({ message })`. */
  datatype Body = Error(error: string) | Message(message: string)

  datatype Response = Response(status: int, body: Body, setCookie: Option<string>)

  const MethodNotAllowed := Response(405, Error("Method Not Allowed"), None)

  const InternalError := Response(500, Error("An internal server error occurred."), None)

  /** JavaScript's `!x` for a request field that is absent, null or a string. */
  predicate IsFalsy(field: Option<string>): (r: bool)
    ensures !r ==> field.Some? && |field.value| > 0
  {
    field.None? || field.value == ""
  }
}
