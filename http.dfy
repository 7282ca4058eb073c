/** Response records: cookies and the status and body a handler sends. */
module Http {
  import opened Wrappers

  /** The options object passed to `res.cookie`; `expires` is a time in
      seconds and `maxAge` a duration in milliseconds. */
  datatype CookieOptions = CookieOptions(
    expires: Option<int>, maxAge: int, httpOnly: bool, sameSite: Option<string>, secure: bool)

  datatype Cookie = Cookie(name: string, value: string, options: CookieOptions)

  datatype Reply<T> = Reply(status: int, cookies: seq<Cookie>, body: T)

  /** A plain JSON body `{ success, message }`. */
  datatype Acknowledgement = Acknowledgement(success: bool, message: string)
}
