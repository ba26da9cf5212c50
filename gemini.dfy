/** The welcome-message client. The generation call itself is foreign; what it answers is an
    input here: `None` when the call throws, `Some(text)` with the reply's text otherwise
    (`Some("")` also stands for a reply without text). */
module Gemini {
  import opened Types

  /** Shown when the reply carries no text. */
  const EmptyReplyFallback: string := "歡迎來到未來課堂！"

  /** Shown when the generation call fails. */
  const ErrorFallback: string := "打卡成功！祝你有個充實的一天。"

  /** The message the client resolves to. It never fails and is never empty: a reply with text
      is passed through, anything else is replaced by one of the two fixed sentences. */
  function WelcomeMessage(reply: Option<string>): (msg: string)
    ensures msg != ""
    ensures reply == None ==> msg == ErrorFallback
    ensures reply == Some("") ==> msg == EmptyReplyFallback
    ensures reply.Some? && reply.value != "" ==> msg == reply.value
  {
    match reply
    case None => ErrorFallback
    case Some(text) => if text != "" then text else EmptyReplyFallback
  }
}
