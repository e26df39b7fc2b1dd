/**
 * The older payload shapes, still used by the message handler. `FromWho`,
 * `TelegramChat` and `Message` validate exactly like their namesakes in
 * TelegramUpdateModels (same keys, same `from` alias, same `title`/`username`
 * choice, same defaults and the same three chat types), so they are those types.
 * What differs is the update itself: `update_id` is a required integer and
 * `message` has no `result` alternative.
 */
module UpdateModels {
  import opened Wrappers
  import opened Json
  import T = TelegramUpdateModels

  type FromWho = T.TelegramUser
  type TelegramChat = T.TelegramChat
  type Message = T.Message

  datatype TelegramUpdatePing = TelegramUpdatePing(updateId: int, message: Message)

  function ParsePing(o: Object): (r: Option<TelegramUpdatePing>)
    ensures r.Some? ==> "update_id" in o && o["update_id"] == JInt(r.value.updateId)
    ensures r.Some? ==> "message" in o && T.ParseMessage(o["message"]) == Some(r.value.message)
    ensures (&& RequiredInt(o, "update_id").Some? && "message" in o
             && T.ParseMessage(o["message"]).Some?) ==> r.Some?
  {
    match (RequiredInt(o, "update_id"), if "message" in o then T.ParseMessage(o["message"]) else None)
    case (Some(updateId), Some(m)) => Some(TelegramUpdatePing(updateId, m))
    case _ => None
  }

  /** The older shape ignores every key besides `update_id` and `message`. */
  lemma PingIgnoresOtherKeys(o: Object, o': Object)
    requires AgreeOn(o, o', {"update_id", "message"})
    ensures ParsePing(o) == ParsePing(o')
  {
    assert "update_id" in {"update_id", "message"} && "message" in {"update_id", "message"};
  }

  /** Without an integer `update_id` the older shape never validates (`null` included). */
  lemma UpdateIdRequired(o: Object)
    requires "update_id" !in o || o["update_id"] == JNull
    ensures ParsePing(o) == None
  {
  }

  /** A payload carrying its message only under `result` is rejected by the older shape. */
  lemma NoResultAlias(o: Object)
    requires "message" !in o
    ensures ParsePing(o) == None
  {
  }

  /** Whatever the older shape accepts, the newer one accepts with the same content. */
  lemma OlderAcceptsLess(o: Object)
    ensures ParsePing(o).Some? ==>
              T.ParsePing(o) == Some(T.TelegramUpdatePing(Some(ParsePing(o).value.updateId), ParsePing(o).value.message))
  {
  }

  /** The converse fails: a ping without `update_id` passes the newer shape only. */
  lemma {:induction false} NewerAcceptsMore(m: Message)
    ensures T.ParsePing(T.PingToObject(T.TelegramUpdatePing(None, m))).Some?
    ensures ParsePing(T.PingToObject(T.TelegramUpdatePing(None, m))) == None
  {
    T.PingRoundTrip(T.TelegramUpdatePing(None, m));
  }

  /** The payload of an older update, for the round trip below. */
  function PingToObject(p: TelegramUpdatePing): Object
  {
    T.PingToObject(T.TelegramUpdatePing(Some(p.updateId), p.message))
  }

  lemma {:induction false} PingRoundTrip(p: TelegramUpdatePing)
    ensures ParsePing(PingToObject(p)) == Some(p)
  {
    T.MessageRoundTrip(p.message);
  }
}
