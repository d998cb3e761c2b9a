/**
 * What the account pages get back from their awaited `authService` calls. Each call either
 * resolves to the `{ success, message, data }` body of the response or throws; a thrown error
 * carries `err.response?.data?.message`. A message that is absent and one that is empty are
 * both `""`: the pages only show an error or success text when it is truthy.
 */
module Forms {
  import opened Common

  datatype Response<T> = Response(success: bool, message: string, data: Option<T>)

  datatype Outcome<T> = Answered(res: Response<T>) | Threw(message: string)

  /** The two tokens of a sign-in, a verification or a password change. */
  datatype Tokens = Tokens(accessToken: string, refreshToken: string)

  /** `message || fallback` */
  function OrDefault(message: string, fallback: string): string
  {
    if message != [] then message else fallback
  }

  /** The text a failed call leaves in `error`: the server's message when there is one, the
      page's own wording otherwise. */
  function ErrorText<T>(o: Outcome<T>, fallback: string): (r: string)
    ensures fallback != [] ==> r != []
  {
    match o
    case Answered(res) => OrDefault(res.message, fallback)
    case Threw(m) => OrDefault(m, fallback)
  }

  /** Whether the call resolved with `success` set. */
  predicate Succeeded<T>(o: Outcome<T>)
  {
    o.Answered? && o.res.success
  }
}
