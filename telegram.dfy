/**
 * The publisher `publish_info_to_telegram`: a photo post, and for the one
 * recognised rejection a text post with the same caption to the same chat.
 * The Bot API is a transport that logs every call it is asked to make.
 */
module Telegram {
  import opened Wrappers
  import opened JsStrings
  import opened Listing

  /** The rejection description that triggers the text fallback. */
  const InvalidImageDescription: string := "Bad Request: wrong file identifier/HTTP URL specified"

  datatype Endpoint = SendPhoto | SendMessage

  /** One POST to the Bot API: the endpoint and its JSON body. */
  datatype Call = Call(
    endpoint: Endpoint,
    chatId: int,
    parseMode: string,
    text: string,
    photo: Option<string>,
    disableWebPagePreview: bool,
    disableNotification: bool)

  /**
   * The outcome of one POST as axios reports it: a 2xx answer, a rejection
   * with an HTTP status and the `description` of the body, or an error with
   * no response at all (network failure, timeout).
   */
  datatype Response = Delivered | Rejected(status: int, description: string) | NoResponse

  /** `error.response && error.response.status === 400 && error.response.data.description === ...`. */
  predicate IsInvalidImage(r: Response) {
    r.Rejected? && r.status == 400 && r.description == InvalidImageDescription
  }

  /** The answer of the Bot API to the last call of a history of calls. */
  type Responder = seq<Call> -> Response

  /** The HTML caption of an item: its link, info type and title, then its tags. */
  function Caption(item: InfoItem, tags: seq<string>): string {
    "<a href=\"" + item.linkPath + "\">【" + item.infoType + "】" + item.infoTitle + "</a>\nTags: " + Join(tags, " ")
  }

  function PhotoCall(item: InfoItem, chatId: int, tags: seq<string>): Call {
    Call(SendPhoto, chatId, "HTML", Caption(item, tags), Some(item.imageUrl), true, true)
  }

  function MessageCall(item: InfoItem, chatId: int, tags: seq<string>): Call {
    Call(SendMessage, chatId, "HTML", Caption(item, tags), None, true, true)
  }

  /** A returned code, or the failed fallback's error, which propagates to the caller. */
  datatype Outcome = Returned(code: int) | Thrown(error: Response)

  /** What one publication does: its outcome and the calls it made, in order. */
  datatype Attempt = Attempt(outcome: Outcome, calls: seq<Call>)

  /**
   * The fallback protocol after the calls `history`: a delivered photo gives
   * 0 after one call; the recognised rejection gives exactly one more call,
   * a text message to the same chat with the photo's caption, and 0 if it is
   * delivered (its failure is thrown); any other rejection gives 1 after the
   * one call. A returned code is never negative.
   */
  function PublishAttempt(item: InfoItem, chatId: int, tags: seq<string>, respond: Responder, history: seq<Call>): (a: Attempt)
    ensures 1 <= |a.calls| <= 2 && a.calls[0] == PhotoCall(item, chatId, tags)
    ensures respond(history + [a.calls[0]]) == Delivered ==> a == Attempt(Returned(0), [PhotoCall(item, chatId, tags)])
    ensures IsInvalidImage(respond(history + [a.calls[0]])) ==>
      |a.calls| == 2 && a.calls[1] == a.calls[0].(endpoint := SendMessage, photo := None)
      && a.outcome == (if respond(history + a.calls) == Delivered then Returned(0) else Thrown(respond(history + a.calls)))
    ensures var r := respond(history + [a.calls[0]]);
      r != Delivered && !IsInvalidImage(r) ==> a == Attempt(Returned(1), [PhotoCall(item, chatId, tags)])
    ensures a.outcome.Returned? ==> a.outcome.code == 0 || a.outcome.code == 1
  {
    var photo := PhotoCall(item, chatId, tags);
    var r := respond(history + [photo]);
    if r == Delivered then Attempt(Returned(0), [photo])
    else if IsInvalidImage(r) then
      var message := MessageCall(item, chatId, tags);
      var r' := respond(history + [photo, message]);
      Attempt(if r' == Delivered then Returned(0) else Thrown(r'), [photo, message])
    else Attempt(Returned(1), [photo])
  }

  /**
   * The caption ends with the tags joined by single spaces; tags without a
   * space can be read back from it by splitting.
   */
  lemma CaptionTags(item: InfoItem, tags: seq<string>)
    requires |tags| >= 1
    requires forall i :: 0 <= i < |tags| ==> ' ' !in tags[i]
    ensures var c := Caption(item, tags); var j := Join(tags, " ");
      |j| <= |c| && c[|c| - |j|..] == j && Split(j, ' ') == tags
  {
    SplitJoin(tags, ' ');
  }

  /** The Bot API: every POST is logged in `sent` and answered by `respond`. */
  class TelegramBot {
    var sent: seq<Call>
    const respond: Responder

    constructor (respond: Responder)
      ensures sent == [] && this.respond == respond
    {
      sent := [];
      this.respond := respond;
    }

    method Post(call: Call) returns (r: Response)
      modifies this
      ensures sent == old(sent) + [call]
      ensures r == respond(sent)
    {
      sent := sent + [call];
      r := respond(sent);
    }
  }

  /** `publish_info_to_telegram`: the calls it makes are those of `PublishAttempt`. */
  method PublishInfoToTelegram(bot: TelegramBot, item: InfoItem, chatId: int, tags: seq<string>) returns (outcome: Outcome)
    modifies bot
    ensures var a := PublishAttempt(item, chatId, tags, bot.respond, old(bot.sent));
      outcome == a.outcome && bot.sent == old(bot.sent) + a.calls
  {
    var photoResponse := bot.Post(PhotoCall(item, chatId, tags));
    if photoResponse == Delivered {
      return Returned(0);
    }
    if IsInvalidImage(photoResponse) {
      var messageResponse := bot.Post(MessageCall(item, chatId, tags));
      if messageResponse != Delivered {
        assert old(bot.sent) + [PhotoCall(item, chatId, tags), MessageCall(item, chatId, tags)] == bot.sent;
        return Thrown(messageResponse);
      }
      assert old(bot.sent) + [PhotoCall(item, chatId, tags), MessageCall(item, chatId, tags)] == bot.sent;
      return Returned(0);
    }
    return Returned(1);
  }
}
