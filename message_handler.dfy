/**
 * The tag gate of the direct message handler: in group and supergroup chats
 * the bot answers only when the lower-cased text contains `@quicklingo`;
 * private chats are always answered. Generation and sending are effects,
 * recorded in order; generation is a parameter that may raise.
 */
module MessageHandler {
  import opened Wrappers
  import Strings
  import T = TelegramUpdateModels
  import U = UpdateModels
  import G = GenerateMessage
  import opened GenAiModels

  /** The bot's mention token, in lower case. */
  const Tag: string := "@quicklingo"

  /** Is the message addressed to the bot? */
  predicate ShouldRespond(chatType: T.ChatType, text: string)
  {
    chatType !in {T.Group, T.Supergroup} || Strings.Contains(Strings.Lower(text), Tag)
  }

  /**
   * Private chats always proceed; in a group or supergroup the message proceeds exactly
   * when the tag occurs somewhere in the lower-cased text.
   */
  lemma ShouldRespondIff(chatType: T.ChatType, text: string)
    ensures chatType == T.Private ==> ShouldRespond(chatType, text)
    ensures chatType != T.Private ==>
              (ShouldRespond(chatType, text) <==> exists i :: Strings.OccursAt(Strings.Lower(text), Tag, i))
  {
    Strings.ContainsIff(Strings.Lower(text), Tag);
    if chatType != T.Private {
      assert ShouldRespond(chatType, text) == Strings.Contains(Strings.Lower(text), Tag);
    }
  }

  /** The calls the handler makes, in order. */
  datatype Effect =
    | Generate(update: U.TelegramUpdatePing)
    | Send(update: U.TelegramUpdatePing, response: AIResponse)

  /** What `entry_process_message` ends with: `None`, the response, or the generator's exception. */
  datatype Outcome = Ignored | Replied(response: AIResponse) | Raised(error: G.GenError)

  datatype Processed = Processed(outcome: Outcome, effects: seq<Effect>)

  /** `entry_process_message`. */
  function EntryProcessMessage(
    update: U.TelegramUpdatePing, generate: U.TelegramUpdatePing -> Result<AIResponse, G.GenError>)
    : (p: Processed)
    ensures !ShouldRespond(update.message.chat.chatType, update.message.text) ==> p == Processed(Ignored, [])
    ensures ShouldRespond(update.message.chat.chatType, update.message.text) ==> !p.outcome.Ignored?
    ensures ShouldRespond(update.message.chat.chatType, update.message.text) ==>
              |p.effects| >= 1 && p.effects[0] == Generate(update)
              && (p.outcome.Replied? <==> generate(update).Success?)
              && (p.outcome.Replied? ==> p.outcome.response == generate(update).value
                                         && p.effects == [Generate(update), Send(update, p.outcome.response)])
              && (p.outcome.Raised? ==> p.outcome.error == generate(update).error && p.effects == [Generate(update)])
  {
    if !ShouldRespond(update.message.chat.chatType, update.message.text) then Processed(Ignored, [])
    else
      match generate(update)
      case Success(response) => Processed(Replied(response), [Generate(update), Send(update, response)])
      case Failure(e) => Processed(Raised(e), [Generate(update)])
  }

  /** In a group or supergroup, the untagged text is ignored without generating or sending. */
  lemma UntaggedGroupIgnored(update: U.TelegramUpdatePing, generate: U.TelegramUpdatePing -> Result<AIResponse, G.GenError>)
    requires update.message.chat.chatType in {T.Group, T.Supergroup}
    requires !Strings.Contains(Strings.Lower(update.message.text), Tag)
    ensures EntryProcessMessage(update, generate).effects == []
    ensures EntryProcessMessage(update, generate).outcome == Ignored
  {
  }

  /** The tag may be written in any case and appear anywhere, even inside a longer word. */
  lemma {:induction false} TagAnywhereAnyCase(chatType: T.ChatType, pre: string, tag: string, post: string)
    requires Strings.Lower(tag) == Tag
    ensures ShouldRespond(chatType, pre + tag + post)
  {
    Strings.LowerAppend(pre + tag, post);
    Strings.LowerAppend(pre, tag);
    Strings.ContainsEmbedded(Strings.Lower(pre), Tag, Strings.Lower(post));
  }

  /** For instance, "@QuickLingo" is recognised. */
  lemma {:induction false} MixedCaseTag(chatType: T.ChatType)
    ensures ShouldRespond(chatType, "@QuickLingo")
  {
    var text := "@QuickLingo";
    LowerMixedCaseTag();
    TagAnywhereAnyCase(chatType, [], text, []);
    assert [] + text + [] == text;
  }

  lemma LowerMixedCaseTag()
    ensures Strings.Lower("@QuickLingo") == Tag
  {
    var text := "@QuickLingo";
    var l := Strings.Lower(text);
    assert |l| == |Tag|;
    forall i | 0 <= i < |text| ensures l[i] == Tag[i] {
      assert l[i] == Strings.LowerChar(text[i]);
    }
  }

  /** The decision depends on the text only through its lower-cased form. */
  lemma CaseInsensitive(chatType: T.ChatType, a: string, b: string)
    requires Strings.Lower(a) == Strings.Lower(b)
    ensures ShouldRespond(chatType, a) == ShouldRespond(chatType, b)
  {
  }
}
