/** The part of an HTTP response the views and middleware decide: either a
    redirect to a location or a rendered page with its status code. */
module Http {
  datatype Response = Redirect(location: string) | Page(status: int)
  {
    /** The status code sent to the client: a redirect is a 302 Found. */
    function StatusCode(): int {
      if Redirect? then 302 else status
    }
  }
}
