/**
 * The ingestion endpoint: a posted update is classified by looking inside its
 * `message`, validated as a text update or a new-member update, and handed to
 * the task queue at most once. Anything that raises on the way is dropped.
 */
module MainApp {
  import opened Wrappers
  import opened Json
  import Strings
  import T = TelegramUpdateModels

  /** The answer of the health endpoint. */
  function HealthCheck(): (r: string)
    ensures r == "I'm running smoothly"
  {
    "I'm running smoothly"
  }

  /**
   * Python's `key in container` for a decoded JSON value: a key test on an
   * object, a substring test on a string, membership on a list; any other
   * value raises `TypeError` (`None`).
   */
  function PyIn(key: string, container: Json): (r: Option<bool>)
    ensures container.JObject? ==> r == Some(key in container.fields)
    ensures container.JStr? ==> r == Some(Strings.Contains(container.s, key))
    ensures container.JArray? ==> r == Some(JStr(key) in container.items)
    ensures r.None? <==> !(container.JObject? || container.JStr? || container.JArray?)
  {
    match container
    case JObject(fields) => Some(key in fields)
    case JStr(s) => Some(Strings.Contains(s, key))
    case JArray(items) => Some(JStr(key) in items)
    case _ => None
  }

  /** What reaches the queue: a validated update, or the raw payload when neither key matched. */
  datatype QueueItem =
    | PingItem(ping: T.TelegramUpdatePing)
    | NewMemberItem(newMember: T.TelegramUpdateNewMember)
    | RawItem(payload: Object)

  /** The classification of `listen_for_updates`; `None` means dropped (logged, nothing enqueued). */
  function Classify(update: Object): (r: Option<QueueItem>)
    ensures r.Some? && r.value.PingItem? ==> T.ParsePing(update) == Some(r.value.ping)
    ensures r.Some? && r.value.NewMemberItem? ==> T.ParseNewMember(update) == Some(r.value.newMember)
    ensures r.Some? && r.value.RawItem? ==> r.value.payload == update
    ensures "message" !in update ==> r.None?
    ensures "message" in update && PyIn("text", update["message"]).None? ==> r.None?
    ensures "message" in update && !update["message"].JObject? ==> r.None? || r.value.RawItem?
  {
    if "message" !in update then None
    else
      match PyIn("text", update["message"])
      case None => None
      case Some(true) =>
        (match T.ParsePing(update)
         case Some(p) => Some(PingItem(p))
         case None => None)
      case Some(false) =>
        (match PyIn("new_chat_member", update["message"])
         case Some(true) =>
           (match T.ParseNewMember(update)
            case Some(n) => Some(NewMemberItem(n))
            case None => None)
         case _ => Some(RawItem(update)))
  }

  /** The task queue the endpoint hands updates to. */
  class TaskQueue {
    var pending: seq<QueueItem>

    constructor ()
      ensures pending == []
    {
      pending := [];
    }

    /** `worker_handle_update.delay(item)`. */
    method Delay(item: QueueItem)
      modifies this
      ensures pending == old(pending) + [item]
    {
      pending := pending + [item];
    }
  }

  /** `listen_for_updates`: enqueues at most once, exactly what `Classify` decides, and returns nothing. */
  method ListenForUpdates(update: Object, queue: TaskQueue)
    modifies queue
    ensures Classify(update).None? ==> queue.pending == old(queue.pending)
    ensures Classify(update).Some? ==> queue.pending == old(queue.pending) + [Classify(update).value]
  {
    if "message" !in update {
      return;  // KeyError: logged and dropped
    }
    var item := RawItem(update);
    var hasText := PyIn("text", update["message"]);
    if hasText.None? {
      return;  // TypeError: logged and dropped
    }
    if hasText.value {
      var ping := T.ParsePing(update);
      if ping.None? {
        return;  // validation error: logged and dropped
      }
      item := PingItem(ping.value);
    } else {
      var hasMember := PyIn("new_chat_member", update["message"]);
      if hasMember == Some(true) {
        var member := T.ParseNewMember(update);
        if member.None? {
          return;  // validation error: logged and dropped
        }
        item := NewMemberItem(member.value);
      }
    }
    queue.Delay(item);
  }

  /** `text` is checked first: a message with `text` is a ping or dropped, never a new-member update. */
  lemma TextTakesPrecedence(update: Object)
    requires "message" in update && PyIn("text", update["message"]) == Some(true)
    ensures Classify(update) == (if T.ParsePing(update).Some? then Some(PingItem(T.ParsePing(update).value)) else None)
  {
  }

  /** `new_chat_member` without `text` is validated as a new-member update. */
  lemma NewMemberWithoutText(update: Object)
    requires "message" in update
    requires PyIn("text", update["message"]) == Some(false) && PyIn("new_chat_member", update["message"]) == Some(true)
    ensures Classify(update) ==
              (if T.ParseNewMember(update).Some? then Some(NewMemberItem(T.ParseNewMember(update).value)) else None)
  {
  }

  /** A `message` that is neither an object, a string nor a list makes `in` raise: the update is dropped. */
  lemma TypeErrorDropped(update: Object)
    requires "message" in update && PyIn("text", update["message"]).None?
    ensures Classify(update) == None
  {
  }

  /**
   * A string or list `message` that matches a key word passes the `in` test, but validation
   * then fails, since the message must be an object: the update is dropped.
   */
  lemma {:induction false} NonObjectMessageMatchDropped(update: Object)
    requires "message" in update && (update["message"].JStr? || update["message"].JArray?)
    requires PyIn("text", update["message"]) == Some(true) || PyIn("new_chat_member", update["message"]) == Some(true)
    ensures Classify(update) == None
  {
    assert FirstPresent(update, ["message", "result"]) == Some(update["message"]);
    assert T.ParseMessage(update["message"]) == None;
    assert T.ParseNewMemberWrapper(update["message"]) == None;
  }

  /** Only an object `message` with neither key word, or a string or list without them, is enqueued raw. */
  lemma {:induction false} RawOnlyWithoutKeyWords(update: Object)
    requires Classify(update).Some? && Classify(update).value.RawItem?
    ensures "message" in update
    ensures PyIn("text", update["message"]) == Some(false) && PyIn("new_chat_member", update["message"]) == Some(false)
  {
  }

  /** The gap: a message object with neither key is enqueued as the raw payload. */
  lemma NeitherKeyEnqueuedRaw(update: Object)
    requires "message" in update && update["message"].JObject?
    requires "text" !in update["message"].fields && "new_chat_member" !in update["message"].fields
    ensures Classify(update) == Some(RawItem(update))
  {
  }

  /** A ping is always read from the `message` key here, so the `result` alias never applies. */
  lemma {:induction false} PingReadFromMessageKey(update: Object)
    requires Classify(update).Some? && Classify(update).value.PingItem?
    ensures T.ParseMessage(update["message"]) == Some(Classify(update).value.ping.message)
  {
    T.PingMessageAlias(update);
  }

  /** Every well-formed text update is enqueued as exactly that update. */
  lemma {:induction false} WellFormedPingEnqueued(p: T.TelegramUpdatePing)
    ensures Classify(T.PingToObject(p)) == Some(PingItem(p))
  {
    T.PingRoundTrip(p);
  }

  /** Every well-formed new-member update is enqueued as exactly that update. */
  lemma {:induction false} WellFormedNewMemberEnqueued(n: T.TelegramUpdateNewMember)
    ensures Classify(T.NewMemberToObject(n)) == Some(NewMemberItem(n))
  {
    var update := T.NewMemberToObject(n);
    var message := T.NewMemberWrapperToJson(n.message);
    assert update["message"] == message;
    assert message.fields.Keys == {"new_chat_member", "from", "chat", "date"};
    assert PyIn("text", message) == Some(false);
    assert PyIn("new_chat_member", message) == Some(true);
    T.NewMemberRoundTrip(n);
  }

  /** A `message` that is a plain string without either key word is enqueued raw as well. */
  lemma StringMessageEnqueuedRaw(update: Object)
    requires "message" in update && update["message"].JStr?
    requires !Strings.Contains(update["message"].s, "text") && !Strings.Contains(update["message"].s, "new_chat_member")
    ensures Classify(update) == Some(RawItem(update))
  {
  }
}
