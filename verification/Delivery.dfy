/** Message Delivery: `sendNotification` (src/monitor.js) edits the message sent
    earlier today when one is on record and sends a new one otherwise, and
    keeps the record of the last message in step with what Telegram answered. */
module Delivery {
  import opened Wrappers
  import opened Helpers

  const MissingTokenError := "❌ Missing telegram bot token or chat id."
  const MissingChatError := "❌ Missing telegram chat id."
  const UnexpectedReplyError := "Unexpected Telegram API response"

  datatype Endpoint = SendMessage | EditMessageText

  /** The body posted to the Bot API: `{ chat_id, text, parse_mode: "HTML",
      message_id }`. */
  datatype Request = Request(endpoint: Endpoint, chatId: string, text: string, parseMode: string, messageId: Option<int>)

  /** What the Bot API answered: the request failed before a JSON body was
      read (`fetch` or `response.json()` threw), or a response whose HTTP
      status is `httpOk` with the JSON fields `ok`, `result` and
      `description`. Only the `message_id` and `date` of `result` matter. */
  datatype Reply =
    | Unreachable(error: string)
    | Answered(httpOk: bool, ok: bool, result: Option<Record>, description: Option<string>)

  datatype Outcome = Sent | Failed(error: string)

  /** The result of one call: the saved messages afterwards, the request made
      (none when the call stops before loading), and the outcome. */
  datatype Step = Step(files: map<string, Record>, request: Option<Request>, outcome: Outcome)

  /** The request for a message, given the loaded record: `editMessageText`
      when the record has a truthy `message_id`, `sendMessage` otherwise; the
      record's `message_id` is sent as it is (`?? undefined`). */
  function RequestFor(last: Option<Record>, chatId: string, message: string): (request: Request)
    ensures request.endpoint == EditMessageText <==> last.Some? && TruthyInt(last.value.messageId)
    ensures request.messageId == (if last.Some? then last.value.messageId else None)
    ensures request.chatId == chatId && request.text == message && request.parseMode == "HTML"
  {
    var messageId := if last.Some? then last.value.messageId else None;
    Request(if TruthyInt(messageId) then EditMessageText else SendMessage, chatId, message, "HTML", messageId)
  }

  /** The error thrown for a reply that is not a success, if any. */
  function ReplyError(reply: Reply): Option<string>
  {
    match reply
    case Unreachable(error) => Some(error)
    case Answered(httpOk, ok, result, description) =>
      if !httpOk then
        Some("Telegram API error: " + (if description.Some? then description.value else "undefined"))
      else if ok && result.Some? then None
      else Some(UnexpectedReplyError)
  }

  /** `sendNotification(message)` as a transition of the saved messages. The
      record is always read, written and deleted under the global key: the
      source calls the helpers without a chat id. */
  function Deliver(files: map<string, Record>, token: Option<string>, chatId: Option<string>, message: string,
                   dayOf: int -> int, today: int, reply: Reply): Step
  {
    if !TruthyString(token) then Step(files, None, Failed(MissingTokenError))
    else if !TruthyString(chatId) then Step(files, None, Failed(MissingChatError))
    else
      var loaded := FilesAfterLoad(files, None, dayOf, today);
      var request := RequestFor(LoadResult(files, None, dayOf, today), chatId.value, message);
      match ReplyError(reply)
      case None =>
        var result := reply.result.value;
        Step(loaded[GlobalKey := Record(result.messageId, result.date)], Some(request), Sent)
      case Some(error) => Step(loaded - {GlobalKey}, Some(request), Failed(error))
  }

  /** `sendNotification(message)` with the saved messages in `store`. The
      reply of the Bot API is a parameter; the request is returned so that
      what was asked for can be stated. */
  method SendNotification(store: MessageStore, token: Option<string>, chatId: Option<string>, message: string,
                          dayOf: int -> int, today: int, reply: Reply)
    returns (request: Option<Request>, outcome: Outcome)
    modifies store
    ensures Step(store.files, request, outcome) == Deliver(old(store.files), token, chatId, message, dayOf, today, reply)
  {
    if !TruthyString(token) {
      return None, Failed(MissingTokenError);
    }
    if !TruthyString(chatId) {
      return None, Failed(MissingChatError);
    }
    var lastMessage := store.Load(None, dayOf, today);
    var r := RequestFor(lastMessage, chatId.value, message);
    request := Some(r);
    match reply {
      case Unreachable(error) =>
        store.Delete(None);
        outcome := Failed(error);
      case Answered(httpOk, ok, result, description) =>
        if !httpOk {
          store.Delete(None);
          outcome := Failed("Telegram API error: " + (if description.Some? then description.value else "undefined"));
        } else if ok && result.Some? {
          store.Save(result.value, None);
          outcome := Sent;
        } else {
          store.Delete(None);
          outcome := Failed(UnexpectedReplyError);
        }
    }
  }

  // ---------------------------------------------------------------------------
  // Properties of a call and of consecutive calls

  /** Without a token or a chat id nothing is asked and nothing changes. */
  lemma MissingCredentials(files: map<string, Record>, token: Option<string>, chatId: Option<string>, message: string,
                           dayOf: int -> int, today: int, reply: Reply)
    requires !TruthyString(token) || !TruthyString(chatId)
    ensures var step := Deliver(files, token, chatId, message, dayOf, today, reply);
      step.files == files && step.request.None? && step.outcome.Failed?
  {
  }

  /** With credentials, the call edits exactly when a current record with a
      truthy message id is on file, and then edits that message. */
  lemma EditsIffCurrentRecord(files: map<string, Record>, token: Option<string>, chatId: Option<string>, message: string,
                              dayOf: int -> int, today: int, reply: Reply)
    requires TruthyString(token) && TruthyString(chatId)
    ensures var step := Deliver(files, token, chatId, message, dayOf, today, reply);
      && step.request.Some?
      && (step.request.value.endpoint == EditMessageText <==>
            GlobalKey in files && !Expired(files[GlobalKey], dayOf, today)
            && TruthyInt(files[GlobalKey].messageId))
      && (step.request.value.endpoint == EditMessageText ==>
            step.request.value.messageId == files[GlobalKey].messageId)
  {
  }

  /** The call succeeds exactly on an HTTP success whose body has `ok` and a
      `result`; it then records that result's id and date, and any failure
      removes the record. Files other than the global one never change. */
  lemma RecordFollowsOutcome(files: map<string, Record>, token: Option<string>, chatId: Option<string>, message: string,
                             dayOf: int -> int, today: int, reply: Reply)
    requires TruthyString(token) && TruthyString(chatId)
    ensures var step := Deliver(files, token, chatId, message, dayOf, today, reply);
      && (step.outcome == Sent <==> reply.Answered? && reply.httpOk && reply.ok && reply.result.Some?)
      && (step.outcome == Sent ==>
            GlobalKey in step.files
            && step.files[GlobalKey] == Record(reply.result.value.messageId, reply.result.value.date))
      && (step.outcome.Failed? ==> GlobalKey !in step.files)
      && (forall k :: k != GlobalKey ==> (k in step.files <==> k in files))
      && (forall k :: k != GlobalKey && k in files ==> step.files[k] == files[k])
  {
  }

  /** After a successful call, a second call on the same day (by the
      calendar of the record's date) edits the message Telegram returned,
      provided it returned a truthy message id. */
  lemma SameDayRerunEdits(files: map<string, Record>, token: Option<string>, chatId: Option<string>,
                          first: string, second: string, dayOf: int -> int, today: int, reply: Reply, nextReply: Reply)
    requires TruthyString(token) && TruthyString(chatId)
    requires Deliver(files, token, chatId, first, dayOf, today, reply).outcome == Sent
    requires TruthyInt(reply.result.value.messageId)
    requires !Expired(reply.result.value, dayOf, today)
    ensures var step := Deliver(files, token, chatId, first, dayOf, today, reply);
      var next := Deliver(step.files, token, chatId, second, dayOf, today, nextReply);
      next.request == Some(Request(EditMessageText, chatId.value, second, "HTML", reply.result.value.messageId))
  {
    RecordFollowsOutcome(files, token, chatId, first, dayOf, today, reply);
  }

  /** After a failed call with credentials, the next call sends a new
      message. */
  lemma RerunAfterFailureSends(files: map<string, Record>, token: Option<string>, chatId: Option<string>,
                               first: string, second: string, dayOf: int -> int, today: int, reply: Reply, nextReply: Reply)
    requires TruthyString(token) && TruthyString(chatId)
    requires Deliver(files, token, chatId, first, dayOf, today, reply).outcome.Failed?
    ensures var step := Deliver(files, token, chatId, first, dayOf, today, reply);
      var next := Deliver(step.files, token, chatId, second, dayOf, today, nextReply);
      next.request.Some? && next.request.value.endpoint == SendMessage
  {
    RecordFollowsOutcome(files, token, chatId, first, dayOf, today, reply);
  }

  /** A record from an earlier day is never edited: a new message is sent, and
      the old record does not survive the call. */
  lemma StaleRecordSends(files: map<string, Record>, token: Option<string>, chatId: Option<string>, message: string,
                         dayOf: int -> int, today: int, reply: Reply)
    requires TruthyString(token) && TruthyString(chatId)
    requires GlobalKey in files && Expired(files[GlobalKey], dayOf, today)
    ensures var step := Deliver(files, token, chatId, message, dayOf, today, reply);
      && step.request.Some? && step.request.value.endpoint == SendMessage
      && step.request.value.messageId.None?
      && (step.outcome.Failed? ==> GlobalKey !in step.files)
  {
  }
}
