/** What the three subscription route handlers send back. */
module Http {
  /** The JSON body `{ success, message }` together with the HTTP status it is sent with. */
  datatype Response = Response(status: int, success: bool, message: string)
}
