/** The exceptions the client raises or lets through, as one error type. */
module Exceptions {
  import opened Base

  datatype Error =
      /** BCHydroAuthException. Python renders it as `context` followed by the rendering of
          `cause` when there is one, as the f-strings "Failed to refresh data: {err}" and
          "Authentication failed: {err}" do; `cause` is the exception chained with `from`. */
    | AuthError(context: string, cause: Option<Error>)
      /** BCHydroInvalidHtmlException. */
    | InvalidHtml(message: string)
      /** BCHydroAlertDialogException. */
    | AlertDialog(message: string)
      /** ValueError from `float()` or `strptime()`, with the text it rejected. */
    | ValueError(text: string)
      /** IndexError from indexing an empty list. */
    | IndexError
      /** KeyError from a missing dictionary key. */
    | KeyError(key: string)
      /** An exception raised by the browser automation library, with its message. */
    | BrowserError(message: string)
      /** AttributeError from calling a method on None. */
    | AttributeError(message: string)
}
