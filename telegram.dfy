/** The alert notifier: a guard on the credentials in front of one HTTP POST. */
module Telegram {
  import opened Wrappers

  /** The POST the notifier sends: the bot's `sendMessage` URL and its JSON payload. */
  datatype Request = Request(url: string, chatId: string, text: string, parseMode: string)

  /** How the POST went: the decoded response body, or the error it raised. */
  datatype PostOutcome = Delivered(response: string) | PostFailed(error: string)

  /** The returned dictionary: `success` and either `response` or `error`. */
  datatype SendResult = SendResult(success: bool, response: Option<string>, error: Option<string>)

  const MissingCredentials: string := "Bot Token or Chat ID not provided."

  /**
   * `send_telegram_alert`, with the network call as the parameter `post`. With
   * an empty token or chat id nothing is posted and the result is the fixed
   * failure; otherwise the result reports how the one POST went.
   */
  function SendTelegramAlert(botToken: string, chatId: string, message: string,
                             post: Request -> PostOutcome): (r: SendResult)
    ensures botToken == "" || chatId == "" ==> r == SendResult(false, None, Some(MissingCredentials))
    ensures botToken != "" && chatId != "" ==>
              var request := Request("https://api.telegram.org/bot" + botToken + "/sendMessage", chatId, message, "Markdown");
              (r.success <==> post(request).Delivered?)
              && (post(request).Delivered? ==> r.response == Some(post(request).response))
              && (post(request).PostFailed? ==> r.error == Some(post(request).error))
    ensures r.success <==> r.response.Some?
    ensures r.success <==> r.error.None?
  {
    if botToken == "" || chatId == "" then
      SendResult(false, None, Some(MissingCredentials))
    else
      var request := Request("https://api.telegram.org/bot" + botToken + "/sendMessage", chatId, message, "Markdown");
      match post(request)
      case Delivered(body) => SendResult(true, Some(body), None)
      case PostFailed(e) => SendResult(false, None, Some(e))
  }
}
