/** The parts of `anyhow::Error` the core relies on: an error built from a message,
    an error wrapped with a context message, and its `{}` display, which shows the
    outermost message only. */
module Anyhow {

  /** `message` is what `{}` displays; `causes` are the wrapped messages, outermost first. */
  datatype Error = Error(message: string, causes: seq<string>)

  /** `anyhow!(text)` */
  function Msg(text: string): Error {
    Error(text, [])
  }

  /** `format!("{}", e)` */
  function Display(e: Error): string {
    e.message
  }

  /** `Err(e).context(text)`: the new error displays `text` and keeps `e` as its cause. */
  function Context(e: Error, text: string): Error {
    Error(text, [e.message] + e.causes)
  }
}
