/**
 * Prompt assembly and reply handling: stripping `@handles`, turning stored
 * history rows into prompt messages, building the message log, classifying
 * the provider's reply and pricing it.
 *
 * The history store and the provider are parameters: `HistorySource` answers
 * a (chat id, user id, n) query with rows, `Provider` answers a request with a
 * reply body.
 */
module GenerateMessage {
  import opened Wrappers
  import opened Json
  import opened GenAiModels
  import Strings
  import T = TelegramUpdateModels

  // ---------------------------------------------------------------------------
  // Handle removal: every match of `@\w+` is deleted, scanning left to right.

  /** `\w`, restricted to ASCII letters, digits and underscore. */
  predicate IsWordChar(c: char)
  {
    'a' <= c <= 'z' || 'A' <= c <= 'Z' || '0' <= c <= '9' || c == '_'
  }

  /** Length of the longest run of word characters at the start of `s` (greedy `\w+`). */
  function WordRun(s: string): (n: nat)
    ensures n <= |s|
    ensures forall i :: 0 <= i < n ==> IsWordChar(s[i])
    ensures n < |s| ==> !IsWordChar(s[n])
  {
    if s != [] && IsWordChar(s[0]) then 1 + WordRun(s[1..]) else 0
  }

  /** Does a handle (`@` followed by a word character) start at the head of `s`? */
  predicate StartsHandle(s: string)
  {
    |s| >= 2 && s[0] == '@' && IsWordChar(s[1])
  }

  /** `re.sub(r"(@\w+)", "", s)`. */
  function RemoveHandles(s: string): (r: string)
    ensures |r| <= |s|
    ensures '@' !in s ==> r == s
    decreases |s|
  {
    if s == [] then []
    else if StartsHandle(s) then RemoveHandles(s[1 + WordRun(s[1..])..])
    else [s[0]] + RemoveHandles(s[1..])
  }

  /** No `@` in `s` is immediately followed by a word character. */
  predicate NoHandle(s: string)
  {
    forall i :: 0 <= i < |s| - 1 && s[i] == '@' ==> !IsWordChar(s[i + 1])
  }

  /** After a removal the text resumes at a non-word character, and stays so. */
  lemma {:induction false} HeadNotWord(t: string)
    requires t == [] || !IsWordChar(t[0])
    ensures RemoveHandles(t) == [] || !IsWordChar(RemoveHandles(t)[0])
    decreases |t|
  {
    if t != [] && StartsHandle(t) {
      HeadNotWord(t[1 + WordRun(t[1..])..]);
    }
  }

  /** The result contains no handle. */
  lemma {:induction false} NoHandleLeft(s: string)
    ensures NoHandle(RemoveHandles(s))
    decreases |s|
  {
    if s == [] {
    } else if StartsHandle(s) {
      NoHandleLeft(s[1 + WordRun(s[1..])..]);
    } else {
      var rest := RemoveHandles(s[1..]);
      NoHandleLeft(s[1..]);
      if s[0] == '@' {
        HeadNotWord(s[1..]);
      }
      var r := [s[0]] + rest;
      forall i | 0 <= i < |r| - 1 && r[i] == '@' ensures !IsWordChar(r[i + 1]) {
        if i > 0 { assert rest[i - 1] == r[i] && rest[i] == r[i + 1]; }
      }
    }
  }

  /** Text without a handle is left untouched. */
  lemma {:induction false} NoHandleFixed(s: string)
    requires NoHandle(s)
    ensures RemoveHandles(s) == s
    decreases |s|
  {
    if s != [] {
      assert !StartsHandle(s);
      var t := s[1..];
      assert forall i :: 0 <= i < |t| - 1 && t[i] == '@' ==> s[i + 1] == '@' && t[i + 1] == s[i + 2];
      NoHandleFixed(t);
    }
  }

  /** Removing handles twice is the same as removing them once. */
  lemma Idempotent(s: string)
    ensures RemoveHandles(RemoveHandles(s)) == RemoveHandles(s)
  {
    NoHandleLeft(s);
    NoHandleFixed(RemoveHandles(s));
  }

  /** `a` is obtained from `b` by deleting characters. */
  predicate Subsequence(a: string, b: string)
    decreases |b|
  {
    a == [] || (b != [] && ((a[0] == b[0] && Subsequence(a[1..], b[1..])) || Subsequence(a, b[1..])))
  }

  lemma {:induction false} SubsequenceLength(a: string, b: string)
    requires Subsequence(a, b)
    ensures |a| <= |b|
    decreases |b|
  {
    if a != [] {
      if a[0] == b[0] && Subsequence(a[1..], b[1..]) { SubsequenceLength(a[1..], b[1..]); }
      else { SubsequenceLength(a, b[1..]); }
    }
  }

  lemma {:induction false} SubsequenceDrop(a: string, b: string, k: nat)
    requires k <= |b| && Subsequence(a, b[k..])
    ensures Subsequence(a, b)
    decreases k
  {
    if k > 0 {
      assert b[k..] == b[1..][k - 1..];
      SubsequenceDrop(a, b[1..], k - 1);
    }
  }

  /** The characters that are neither `@` nor word characters, in order. */
  function Others(s: string): string
  {
    if s == [] then []
    else if s[0] == '@' || IsWordChar(s[0]) then Others(s[1..])
    else [s[0]] + Others(s[1..])
  }

  lemma {:induction false} OthersSkip(s: string, k: nat)
    requires k <= |s|
    requires forall i :: 0 <= i < k ==> s[i] == '@' || IsWordChar(s[i])
    ensures Others(s) == Others(s[k..])
    decreases k
  {
    if k > 0 {
      assert s[k..] == s[1..][k - 1..];
      OthersSkip(s[1..], k - 1);
    }
  }

  /**
   * Only handles are deleted: the result is a subsequence of the input, hence no
   * longer, and every character other than `@` and word characters survives in order.
   */
  lemma {:induction false} OnlyHandlesDeleted(s: string)
    ensures Subsequence(RemoveHandles(s), s)
    ensures |RemoveHandles(s)| <= |s|
    ensures Others(RemoveHandles(s)) == Others(s)
    decreases |s|
  {
    if s == [] {
    } else if StartsHandle(s) {
      var k := 1 + WordRun(s[1..]);
      OnlyHandlesDeleted(s[k..]);
      SubsequenceDrop(RemoveHandles(s), s, k);
      OthersSkip(s, k);
    } else {
      OnlyHandlesDeleted(s[1..]);
      var r := RemoveHandles(s);
      assert r[0] == s[0] && r[1..] == RemoveHandles(s[1..]);
    }
    SubsequenceLength(RemoveHandles(s), s);
  }

  // ---------------------------------------------------------------------------
  // Which positions a left-to-right `re.sub(r"(@\w+)", "", s)` deletes, stated per position.

  /** Where the run of word characters ending just before `i` starts (`i` itself when there is none). */
  function RunStart(s: string, i: nat): (r: nat)
    requires i <= |s|
    ensures r <= i
    ensures forall m :: r <= m < i ==> IsWordChar(s[m])
    ensures r == 0 || !IsWordChar(s[r - 1])
  {
    if i > 0 && IsWordChar(s[i - 1]) then RunStart(s, i - 1) else i
  }

  /**
   * Position `i` belongs to a handle: it is an `@` followed by a word character, or a
   * word character whose maximal run of word characters starts right after an `@`.
   */
  predicate InHandle(s: string, i: nat)
    requires i < |s|
  {
    || (s[i] == '@' && i + 1 < |s| && IsWordChar(s[i + 1]))
    || (IsWordChar(s[i]) && RunStart(s, i) > 0 && s[RunStart(s, i) - 1] == '@')
  }

  /** The characters of `s` from position `i` on that belong to no handle, in order. */
  function Kept(s: string, i: nat): string
    requires i <= |s|
    decreases |s| - i
  {
    if i == |s| then []
    else (if InHandle(s, i) then [] else [s[i]]) + Kept(s, i + 1)
  }

  lemma {:induction false} KeptSkip(s: string, a: nat, b: nat)
    requires a <= b <= |s|
    requires forall m :: a <= m < b ==> InHandle(s, m)
    ensures Kept(s, a) == Kept(s, b)
    decreases b - a
  {
    if a < b { KeptSkip(s, a + 1, b); }
  }

  lemma {:induction false} KeptShift(s: string, k: nat, j: nat)
    requires k <= j <= |s|
    requires forall m :: j <= m < |s| ==> InHandle(s, m) == InHandle(s[k..], m - k)
    ensures Kept(s, j) == Kept(s[k..], j - k)
    decreases |s| - j
  {
    if j < |s| {
      assert s[k..][j - k] == s[j];
      KeptShift(s, k, j + 1);
    }
  }

  /** Seen from position `k`, a run starts where it did, or at `k` when it reaches back further. */
  lemma {:induction false} RunStartSuffix(s: string, k: nat, j: nat)
    requires k <= j <= |s|
    ensures RunStart(s[k..], j - k) + k == if RunStart(s, j) >= k then RunStart(s, j) else k
    decreases j - k
  {
    if j > k && IsWordChar(s[j - 1]) {
      assert s[k..][j - k - 1] == s[j - 1];
      RunStartSuffix(s, k, j - 1);
    }
  }

  /**
   * Cutting `s` at `k` does not change which later positions are in handles, provided
   * no run of word characters reaching back to `k` hangs off an `@` before it.
   */
  lemma {:induction false} InHandleSuffix(s: string, k: nat)
    requires k <= |s|
    requires forall j :: k <= j < |s| && IsWordChar(s[j]) && RunStart(s, j) <= k ==>
               RunStart(s, j) == 0 || s[RunStart(s, j) - 1] != '@'
    ensures forall j :: k <= j < |s| ==> InHandle(s, j) == InHandle(s[k..], j - k)
  {
    forall j | k <= j < |s| ensures InHandle(s, j) == InHandle(s[k..], j - k) {
      InHandleSuffixAt(s, k, j);
    }
  }

  lemma {:induction false} InHandleSuffixAt(s: string, k: nat, j: nat)
    requires k <= j < |s|
    requires IsWordChar(s[j]) && RunStart(s, j) <= k ==> RunStart(s, j) == 0 || s[RunStart(s, j) - 1] != '@'
    ensures InHandle(s, j) == InHandle(s[k..], j - k)
  {
    var t := s[k..];
    RunStartSuffix(s, k, j);
    assert t[j - k] == s[j];
    var atClause := s[j] == '@' && j + 1 < |s| && IsWordChar(s[j + 1]);
    assert atClause == (t[j - k] == '@' && j - k + 1 < |t| && IsWordChar(t[j - k + 1])) by {
      if j + 1 < |s| { assert t[j - k + 1] == s[j + 1]; }
    }
    var rs, rt := RunStart(s, j), RunStart(t, j - k);
    if rs > k {
      assert rt == rs - k && t[rt - 1] == s[rs - 1];
    } else {
      assert rt == 0;
    }
  }

  /** Characters after a run of word characters that started right after `a`. */
  lemma {:induction false} RunStartIs(s: string, a: nat, j: nat)
    requires a <= j <= |s|
    requires forall m :: a <= m < j ==> IsWordChar(s[m])
    requires a == 0 || !IsWordChar(s[a - 1])
    ensures RunStart(s, j) == a
    decreases j - a
  {
    if j > a { RunStartIs(s, a, j - 1); }
  }

  /**
   * The removal deletes exactly the positions that belong to handles and keeps every
   * other character, word characters and lone `@` included, in its original order.
   */
  lemma {:induction false} RemovesExactlyHandles(s: string)
    ensures RemoveHandles(s) == Kept(s, 0)
    decreases |s|
  {
    if s == [] {
    } else if StartsHandle(s) {
      var k := 1 + WordRun(s[1..]);
      HandleDropped(s);
      RemovesExactlyHandles(s[k..]);
    } else {
      HeadKept(s);
      RemovesExactlyHandles(s[1..]);
    }
  }

  /** A handle at the front is deleted as a whole, and what follows it is judged on its own. */
  lemma {:induction false} HandleDropped(s: string)
    requires StartsHandle(s)
    ensures Kept(s, 0) == Kept(s[1 + WordRun(s[1..])..], 0)
  {
    var k := 1 + WordRun(s[1..]);
    forall m | 1 <= m < k ensures IsWordChar(s[m]) { assert s[1..][m - 1] == s[m]; }
    forall m | 0 <= m < k ensures InHandle(s, m) {
      if m > 0 { RunStartIs(s, 1, m); }
    }
    KeptSkip(s, 0, k);
    assert k < |s| ==> !IsWordChar(s[k]) by { if k < |s| { assert s[1..][k - 1] == s[k]; } }
    InHandleSuffix(s, k);
    KeptShift(s, k, k);
  }

  /** A first character that does not start a handle is kept, and the rest is judged on its own. */
  lemma {:induction false} HeadKept(s: string)
    requires s != [] && !StartsHandle(s)
    ensures Kept(s, 0) == [s[0]] + Kept(s[1..], 0)
  {
    assert !InHandle(s, 0);
    assert Kept(s, 0) == [s[0]] + Kept(s, 1);
    PlainHeadSuffix(s);
    KeptShift(s, 1, 1);
  }

  lemma {:induction false} PlainHeadSuffix(s: string)
    requires s != [] && !StartsHandle(s)
    ensures forall j :: 1 <= j < |s| ==> InHandle(s, j) == InHandle(s[1..], j - 1)
  {
    forall j | 1 <= j < |s| ensures InHandle(s, j) == InHandle(s[1..], j - 1) {
      NoRunAfterPlainHead(s, j);
      InHandleSuffixAt(s, 1, j);
    }
  }

  lemma {:induction false} NoRunAfterPlainHead(s: string, j: nat)
    requires 1 <= j < |s| && !StartsHandle(s)
    ensures IsWordChar(s[j]) && RunStart(s, j) <= 1 ==> RunStart(s, j) == 0 || s[0] != '@'
  {
  }

  /** For instance, in "hello @bob" the word before the handle and the space survive. */
  lemma HelloBob()
    ensures RemoveHandles("hello @bob") == "hello "
  {
    var s := "hello @bob";
    assert !StartsHandle(s[0..]) && !StartsHandle(s[1..]) && !StartsHandle(s[2..]);
    assert !StartsHandle(s[3..]) && !StartsHandle(s[4..]) && !StartsHandle(s[5..]);
    assert StartsHandle(s[6..]) && WordRun(s[7..]) == 3;
    assert s[6..][1 + 3..] == [];
  }

  // ---------------------------------------------------------------------------
  // Conversation history

  /** A stored message row as the history query returns it. */
  datatype HistoryRow = HistoryRow(role: string, message: string)

  /** `get_last_n_messages(chat_id, user_id, n)`, supplied by the store. */
  type HistorySource = (int, int, nat) -> seq<HistoryRow>

  /** The number of prior rows requested for the prompt. */
  const HistoryLimit: nat := 3

  /** One prompt message per row, in order; a row whose role is not a valid role fails validation. */
  function ToLLMMessages(rows: seq<HistoryRow>): (r: Option<seq<LLMMessage>>)
    ensures r.Some? <==> forall i :: 0 <= i < |rows| ==> ParseRole(rows[i].role).Some?
    ensures r.Some? ==> |r.value| == |rows|
    ensures r.Some? ==> forall i :: 0 <= i < |rows| ==>
                          RoleValue(r.value[i].role) == rows[i].role && r.value[i].content == rows[i].message
  {
    if rows == [] then Some([])
    else
      match (ParseRole(rows[0].role), ToLLMMessages(rows[1..]))
      case (Some(role), Some(rest)) =>
        assert RoleValue(role) == rows[0].role;
        Some([LLMMessage(role, rows[0].message)] + rest)
      case (None, _) => None
      case (_, None) =>
        assert forall i :: 1 <= i < |rows| ==> rows[1..][i - 1] == rows[i];
        None
  }

  /** `format_telegram_chat_history`: the last `HistoryLimit` rows for this chat and sender. */
  function FormatTelegramChatHistory(update: T.TelegramUpdatePing, fetch: HistorySource): (r: Option<seq<LLMMessage>>)
    ensures var rows := fetch(update.message.chat.id, update.message.from.id, 3);
            && (r.Some? <==> forall i :: 0 <= i < |rows| ==> rows[i].role in {"system", "user", "assistant"})
            && (r.Some? ==> |r.value| == |rows| && forall i :: 0 <= i < |rows| ==>
                              r.value[i] == LLMMessage(ParseRole(rows[i].role).value, rows[i].message))
  {
    ToLLMMessages(fetch(update.message.chat.id, update.message.from.id, HistoryLimit))
  }

  // ---------------------------------------------------------------------------
  // The message log

  /** The name the system prompt mentions: username, else first name, else "friend". */
  function DisplayName(u: T.TelegramUser): (name: string)
    ensures u.username.Some? && u.username.value != "" ==> name == u.username.value
    ensures (u.username.None? || u.username.value == "") && u.firstName != "" ==> name == u.firstName
    ensures (u.username.None? || u.username.value == "") && u.firstName == "" ==> name == "friend"
    ensures name != ""
  {
    if u.username.Some? && u.username.value != "" then u.username.value
    else if u.firstName != "" then u.firstName
    else "friend"
  }

  /** The persona instructions before the sender's name; ends with the `@` that tags the sender. */
  const PersonaPreamble: string := "[persona and teaching instructions] The user who sent the last message is @"
  /** The instructions after the sender's name. */
  const PersonaClosing: string := ". [tagging instructions]"

  /** The system prompt: persona instructions that tag the sender by the chosen name. */
  function SystemMessage(update: T.TelegramUpdatePing): (m: LLMMessage)
    ensures m.role == System
    ensures Strings.Contains(m.content, "@" + DisplayName(update.message.from))
  {
    var pre := PersonaPreamble[..|PersonaPreamble| - 1];
    var name := DisplayName(update.message.from);
    assert PersonaPreamble == pre + "@";
    assert PersonaPreamble + name + PersonaClosing == pre + ("@" + name) + PersonaClosing;
    Strings.ContainsEmbedded(pre, "@" + name, PersonaClosing);
    LLMMessage(System, PersonaPreamble + name + PersonaClosing)
  }

  /** The log sent to the provider: system prompt, then history, then the new user text. */
  function AssembleLog(update: T.TelegramUpdatePing, history: seq<LLMMessage>): (log: seq<LLMMessage>)
    ensures |log| == |history| + 2
    ensures log[0] == SystemMessage(update)
    ensures log[1..|history| + 1] == history
    ensures log[|history| + 1] == LLMMessage(User, update.message.text)
  {
    [SystemMessage(update)] + history + [LLMMessage(User, update.message.text)]
  }

  // ---------------------------------------------------------------------------
  // Calling the provider

  /** What is posted to the provider. */
  datatype Request = Request(model: string, messages: seq<LLMMessage>, maxTokens: int)

  /** The body of the provider's answer: decoded JSON, or not JSON at all. */
  datatype ProviderReply = JsonBody(data: Json) | Unparseable

  type Provider = Request -> ProviderReply

  const MaxTokens: int := 1500

  datatype GenError =
    | ProviderError(message: Json)   // the reply carried a truthy `error`
    | ReplyParseError                // the reply could not be read or validated
    | UnknownModel(name: string)     // the price table has no such model
    | HistoryValidationError         // a history row has an invalid role

  /** The reply reports an error: `data.get("error")` is truthy. */
  predicate ErrorFlagged(o: Object)
  {
    "error" in o && Truthy(o["error"])
  }

  /** `data.get("error")` is truthy exactly when the key is present with a value that is not falsy. */
  lemma ErrorFlaggedIff(o: Object)
    ensures ErrorFlagged(o) <==> "error" in o && o["error"] !in FalsyValues
  {
    if "error" in o { TruthyIff(o["error"]); }
  }

  /** The classification step of `invoke_openai`. */
  function ClassifyReply(reply: ProviderReply): (r: Result<AIResponse, GenError>)
    ensures reply.Unparseable? || !reply.data.JObject? ==> r == Failure(ReplyParseError)
    ensures reply.JsonBody? && reply.data.JObject? && ErrorFlagged(reply.data.fields) ==>
              r.Failure? && (r.error.ProviderError? <==> LookupPath(reply.data, [Key("error"), Key("message")]).Some?)
    ensures r.Failure? && r.error.ProviderError? ==>
              LookupPath(reply.data, [Key("error"), Key("message")]) == Some(r.error.message)
    ensures r.Success? <==> reply.JsonBody? && reply.data.JObject? && !ErrorFlagged(reply.data.fields)
                             && ParseAIResponse(reply.data.fields).Some?
    ensures r.Success? ==> Some(r.value) == ParseAIResponse(reply.data.fields)
    ensures r.Failure? ==> r.error.ProviderError? || r.error == ReplyParseError
  {
    match reply
    case Unparseable => Failure(ReplyParseError)
    case JsonBody(data) =>
      if !data.JObject? then Failure(ReplyParseError)
      else if ErrorFlagged(data.fields) then
        match LookupPath(data, [Key("error"), Key("message")])
        case Some(m) => Failure(ProviderError(m))
        case None => Failure(ReplyParseError)
      else
        match ParseAIResponse(data.fields)
        case Some(resp) => Success(resp)
        case None => Failure(ReplyParseError)
  }

  /** `invoke_openai`: one request with the model, the log and the token cap, then classification. */
  function InvokeOpenAI(model: string, messages: seq<LLMMessage>, provider: Provider): (r: Result<AIResponse, GenError>)
    ensures var reply := provider(Request(model, messages, 1500));
            && (r.Success? <==> reply.JsonBody? && reply.data.JObject? && !ErrorFlagged(reply.data.fields)
                                && ParseAIResponse(reply.data.fields).Some?)
            && (r.Success? ==> Some(r.value) == ParseAIResponse(reply.data.fields))
    ensures r.Failure? ==> r.error.ProviderError? || r.error == ReplyParseError
  {
    ClassifyReply(provider(Request(model, messages, MaxTokens)))
  }

  /** `handler_generate_response`: invoke, then price the reply with the model's rates. */
  function HandlerGenerateResponse(messages: seq<LLMMessage>, model: ValidLLMModel, provider: Provider)
    : (r: Result<AIResponse, GenError>)
    ensures r.Failure? <==> InvokeOpenAI(ModelName(model), messages, provider).Failure?
    ensures r.Failure? ==> r == InvokeOpenAI(ModelName(model), messages, provider)
    ensures r.Success? ==>
              var resp := InvokeOpenAI(ModelName(model), messages, provider).value;
              && r.value.text == resp.text && r.value.inputTokens == resp.inputTokens
              && r.value.outputTokens == resp.outputTokens
              && r.value.cost == Some(TokenCost(LlmCostPerToken[ModelName(model)], resp.inputTokens, resp.outputTokens))
  {
    match InvokeOpenAI(ModelName(model), messages, provider)
    case Failure(e) => Failure(e)
    case Success(resp) =>
      EnumPricingNeverFails(resp, model);
      match CalculateCost(resp, ModelName(model), LlmCostPerToken)
      case Success(priced) => Success(priced)
      case Failure(KeyError(name)) => Failure(UnknownModel(name))
  }

  /**
   * `entry_generate_response_from_user_message`: the log is built in place
   * (system prompt, then `extend` with the history, then `append` of the user's
   * text) and handed to the provider with the gpt-4o-mini model.
   */
  method EntryGenerateResponse(update: T.TelegramUpdatePing, fetch: HistorySource, provider: Provider)
    returns (response: Result<AIResponse, GenError>)
    ensures FormatTelegramChatHistory(update, fetch).None? ==> response == Failure(HistoryValidationError)
    ensures FormatTelegramChatHistory(update, fetch).Some? ==>
              response == HandlerGenerateResponse(AssembleLog(update, FormatTelegramChatHistory(update, fetch).value),
                                                  Gpt4oMini, provider)
  {
    var log := new LLMMessageLog([SystemMessage(update)]);
    var history := FormatTelegramChatHistory(update, fetch);
    if history.None? {
      return Failure(HistoryValidationError);
    }
    log.Extend(history.value);
    log.Append(LLMMessage(User, update.message.text));
    response := HandlerGenerateResponse(log.messages, Gpt4oMini, provider);
  }
}
