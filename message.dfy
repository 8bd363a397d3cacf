/**
 * The message pane of one chat: the send flow (`handleSend`), the
 * extraction of the completion's reply, and how the log is drawn.
 * The `messages` table is a remote, append-only map from chat id to the
 * chat's messages in insertion order (the query orders by `created_at`
 * ascending). Every network step takes its result as a parameter.
 */
module MessagePane {
  import opened Wrappers
  import Text

  const UserSender := "user"
  const BotSender := "bot"
  /** Persisted as the bot's message when the reply path is missing or empty. */
  const Fallback := "Sorry, I couldn't respond."
  /** `max_tokens` of every completion request. */
  const MaxTokens := 300

  /** A row of the `messages` table (its id and timestamp are the store's). */
  datatype Msg = Msg(userId: string, sender: string, content: string)

  // ---------------------------------------------------------------------
  // The completion service's answer, as far as the code looks into it.
  // ---------------------------------------------------------------------

  datatype ChoiceMessage = ChoiceMessage(content: Option<string>)
  datatype Choice = Choice(message: Option<ChoiceMessage>)
  /** The parsed JSON body; `choices` holds `null` entries as `None`. */
  datatype Payload = Payload(choices: Option<seq<Option<Choice>>>)
  /** `response.json()`: rejects on a body that is not JSON; `null` JSON is `Parsed(None)`. */
  datatype Body = Malformed | Parsed(data: Option<Payload>)
  /** `fetch(...)`: rejects when the service cannot be reached; otherwise any HTTP status. */
  datatype CompletionResult = Unreachable | Responded(status: int, body: Body)

  datatype Turn = Turn(role: string, content: string)
  /** The JSON body sent to the completion service (the model name comes from the environment). */
  datatype CompletionRequest = CompletionRequest(messages: seq<Turn>, maxTokens: int)

  /** `data?.choices?.[0]?.message?.content`. */
  function ContentAt(data: Option<Payload>): (r: Option<string>)
    ensures r.Some? ==> data.Some? && data.value.choices.Some? && |data.value.choices.value| > 0
  {
    if data.Some? && data.value.choices.Some? && |data.value.choices.value| > 0
      && data.value.choices.value[0].Some? && data.value.choices.value[0].value.message.Some?
    then data.value.choices.value[0].value.message.value.content
    else None
  }

  /** The reply path looks only into the first choice: whatever follows it is never read. */
  lemma ContentAtFirstChoice(first: Option<Choice>, rest: seq<Option<Choice>>)
    ensures ContentAt(Some(Payload(Some([first] + rest))))
      == if first.Some? && first.value.message.Some? then first.value.message.value.content else None
  {
  }

  /** `ContentAt(data) || Fallback`: the text persisted as the bot's reply. */
  function ExtractReply(data: Option<Payload>): (r: string)
    ensures r != ""
    ensures r == Fallback || Some(r) == ContentAt(data)
    ensures (ContentAt(data).Some? && ContentAt(data).value != "") <==> Some(r) == ContentAt(data)
  {
    match ContentAt(data)
    case Some(text) => if text != "" then text else Fallback
    case None => Fallback
  }

  // ---------------------------------------------------------------------
  // Drawing the log.
  // ---------------------------------------------------------------------

  datatype Side = UserSide | BotSide
  datatype Bubble = Bubble(side: Side, content: string)
  datatype View = SelectPrompt | Conversation(bubbles: seq<Bubble>)

  /** `m.sender === "bot"` picks the bot's style; every other sender is drawn as the user. */
  function SideOf(sender: string): (s: Side)
    ensures s == BotSide <==> sender == BotSender
  {
    if sender == BotSender then BotSide else UserSide
  }

  /** One bubble per message, in log order. */
  function Bubbles(log: seq<Msg>): (r: seq<Bubble>)
    ensures |r| == |log|
    ensures forall i :: 0 <= i < |log| ==>
      r[i].content == log[i].content && (r[i].side == BotSide <==> log[i].sender == BotSender)
  {
    if log == [] then [] else [Bubble(SideOf(log[0].sender), log[0].content)] + Bubbles(log[1..])
  }

  /** Without a chat (`!chatId`) the pane shows only the prompt; otherwise the
      fetched messages drawn as bubbles (none before they arrive). */
  function Render(chatId: Option<string>, data: Option<seq<Msg>>): (v: View)
    ensures v.SelectPrompt? <==> !Truthy(chatId)
    ensures Truthy(chatId) ==> v == Conversation(Bubbles(data.GetOr([])))
  {
    if !Truthy(chatId) then SelectPrompt else Conversation(Bubbles(data.GetOr([])))
  }

  // ---------------------------------------------------------------------
  // The remote message log.
  // ---------------------------------------------------------------------

  /** GET_MESSAGES for one chat: its messages in insertion order. */
  function LogOf(logs: map<string, seq<Msg>>, chatId: string): (r: seq<Msg>)
    ensures chatId !in logs ==> r == []
  {
    if chatId in logs then logs[chatId] else []
  }

  /** Appending `msgs` to one chat's log; no other chat's log changes. */
  function AppendAll(logs: map<string, seq<Msg>>, chatId: string, msgs: seq<Msg>): (r: map<string, seq<Msg>>)
    ensures LogOf(r, chatId) == LogOf(logs, chatId) + msgs
    ensures forall other :: other != chatId ==> LogOf(r, other) == LogOf(logs, other)
    ensures msgs == [] ==> r == logs
  {
    if msgs == [] then logs else logs[chatId := LogOf(logs, chatId) + msgs]
  }

  /** Two appends to the same chat are one append of both, in order. */
  lemma AppendTwice(logs: map<string, seq<Msg>>, chatId: string, a: seq<Msg>, b: seq<Msg>)
    ensures AppendAll(AppendAll(logs, chatId, a), chatId, b) == AppendAll(logs, chatId, a + b)
  {
    if a == [] {
      assert a + b == b;
    } else if b == [] {
      assert a + b == a;
    } else {
      assert LogOf(logs, chatId) + a + b == LogOf(logs, chatId) + (a + b);
    }
  }

  /** The `messages` table behind SEND_USER_MESSAGE and GET_MESSAGES. */
  class RemoteLog {
    var logs: map<string, seq<Msg>>

    constructor (logs: map<string, seq<Msg>>)
      ensures this.logs == logs
    {
      this.logs := logs;
    }

    /** GET_MESSAGES: a chat nobody has written to has no messages. */
    function Log(chatId: string): (r: seq<Msg>)
      reads this
      ensures chatId !in logs ==> r == []
    {
      LogOf(logs, chatId)
    }

    /** `sendUserMessage(...)`: `ok` is the remote's answer; a rejected insert stores nothing. */
    method Insert(chatId: string, msg: Msg, ok: bool) returns (inserted: bool)
      modifies this
      ensures inserted == ok
      ensures logs == if ok then AppendAll(old(logs), chatId, [msg]) else old(logs)
    {
      if ok {
        logs := AppendAll(logs, chatId, [msg]);
      }
      inserted := ok;
    }
  }

  // ---------------------------------------------------------------------
  // The send flow.
  // ---------------------------------------------------------------------

  /** The results of the awaited steps of `handleSend`, in the order they happen. */
  datatype SendOutcomes = SendOutcomes(
    userInsertOk: bool,
    firstRefetchOk: bool,
    completion: CompletionResult,
    botInsertOk: bool,
    secondRefetchOk: bool)

  /** The completion service is asked once the user's message is stored and refetched. */
  predicate CompletionRequested(o: SendOutcomes) {
    o.userInsertOk && o.firstRefetchOk
  }

  /** A JSON body came back (whatever the HTTP status). */
  predicate ReplyReceived(o: SendOutcomes) {
    CompletionRequested(o) && o.completion.Responded? && o.completion.body.Parsed?
  }

  /** The reply the bot's message carries, once a body came back. */
  function BotReply(o: SendOutcomes): string
    requires ReplyReceived(o)
  {
    ExtractReply(o.completion.body.data)
  }

  /** What one `handleSend` past its guard appends to the chat's log. */
  function Persisted(userId: string, text: string, o: SendOutcomes): (r: seq<Msg>)
    ensures |r| <= 2
    ensures r != [] <==> o.userInsertOk
    ensures r != [] ==> r[0] == Msg(userId, UserSender, text)
    ensures |r| == 2 <==> ReplyReceived(o) && o.botInsertOk
    ensures |r| == 2 ==> r[1] == Msg(userId, BotSender, BotReply(o))
  {
    if !o.userInsertOk then []
    else if ReplyReceived(o) && o.botInsertOk then
      [Msg(userId, UserSender, text), Msg(userId, BotSender, BotReply(o))]
    else [Msg(userId, UserSender, text)]
  }

  class MessagePane {
    /** The `chatId` prop: the selected chat, if any. */
    var chatId: Option<string>
    /** `useUserId()`. */
    var userId: Option<string>
    /** The message text box. */
    var content: string
    /** The GET_MESSAGES data; absent while the query is skipped or has not answered. */
    var data: Option<seq<Msg>>
    /** The remote store the mutations write to. */
    const store: RemoteLog

    /** Mounting the pane: the query runs only when there is a chat. */
    constructor (store: RemoteLog, chatId: Option<string>, userId: Option<string>)
      ensures this.store == store && this.chatId == chatId && this.userId == userId && content == ""
      ensures data == if Truthy(chatId) then Some(store.Log(chatId.value)) else None
    {
      this.store := store;
      this.chatId := chatId;
      this.userId := userId;
      content := "";
      data := if Truthy(chatId) then Some(store.Log(chatId.value)) else None;
    }

    /** Typing in the message box. */
    method SetContent(text: string)
      modifies this
      ensures content == text
      ensures chatId == old(chatId) && userId == old(userId) && data == old(data)
    {
      content := text;
    }

    /** A new `chatId` prop: the query is skipped without a chat and fetched
        afresh otherwise; the text box keeps its text. */
    method ChangeChat(id: Option<string>)
      modifies this
      ensures chatId == id
      ensures data == if Truthy(id) then Some(store.Log(id.value)) else None
      ensures content == old(content) && userId == old(userId)
    {
      chatId := id;
      data := if Truthy(id) then Some(store.Log(id.value)) else None;
    }

    /** What the pane draws. */
    function View(): (v: View)
      reads this
      ensures v.SelectPrompt? <==> !Truthy(chatId)
      ensures Truthy(chatId) ==> v == Conversation(Bubbles(data.GetOr([])))
    {
      Render(chatId, data)
    }

    /** `handleSend`, with the results of its awaited steps given as `o`.
        `started` says whether the guard let it through; `request` is the
        completion request sent, if one was. */
    method Send(o: SendOutcomes) returns (started: bool, request: Option<CompletionRequest>)
      modifies this, store
      ensures started <==> !Text.IsBlank(old(content)) && Truthy(old(chatId)) && Truthy(old(userId))
      ensures !started ==>
        content == old(content) && data == old(data) && store.logs == old(store.logs) && request.None?
      ensures started ==> content == ""
      ensures started ==>
        store.logs == AppendAll(old(store.logs), old(chatId).value, Persisted(old(userId).value, Text.Trim(old(content)), o))
      ensures request.Some? <==> started && CompletionRequested(o)
      ensures request.Some? ==>
        request.value == CompletionRequest([Turn(UserSender, Text.Trim(old(content)))], MaxTokens)
      ensures started && !CompletionRequested(o) ==> data == old(data)
      ensures started && CompletionRequested(o) && !(ReplyReceived(o) && o.botInsertOk && o.secondRefetchOk) ==>
        data == Some(LogOf(old(store.logs), old(chatId).value) + [Msg(old(userId).value, UserSender, Text.Trim(old(content)))])
      ensures started && ReplyReceived(o) && o.botInsertOk && o.secondRefetchOk ==>
        data == Some(store.Log(old(chatId).value))
      ensures chatId == old(chatId) && userId == old(userId)
    {
      if Text.IsBlank(content) || !Truthy(chatId) || !Truthy(userId) {
        return false, None;
      }
      started := true;
      var userMessage := Text.Trim(content);
      content := "";
      request := Exchange(chatId.value, userId.value, userMessage, o);
    }

    /** The part of `handleSend` after the input is cleared: the two inserts,
        the refetches and the completion request in between. The first
        failing step ends it. */
    method Exchange(chat: string, uid: string, userMessage: string, o: SendOutcomes)
      returns (request: Option<CompletionRequest>)
      modifies this, store
      ensures store.logs == AppendAll(old(store.logs), chat, Persisted(uid, userMessage, o))
      ensures request.Some? <==> CompletionRequested(o)
      ensures request.Some? ==> request.value == CompletionRequest([Turn(UserSender, userMessage)], MaxTokens)
      ensures !CompletionRequested(o) ==> data == old(data)
      ensures CompletionRequested(o) && !(ReplyReceived(o) && o.botInsertOk && o.secondRefetchOk) ==>
        data == Some(LogOf(old(store.logs), chat) + [Msg(uid, UserSender, userMessage)])
      ensures ReplyReceived(o) && o.botInsertOk && o.secondRefetchOk ==> data == Some(store.Log(chat))
      ensures content == old(content) && chatId == old(chatId) && userId == old(userId)
    {
      request := None;
      var ok := store.Insert(chat, Msg(uid, UserSender, userMessage), o.userInsertOk);
      if !ok { return; }
      if !o.firstRefetchOk { return; }
      data := Some(store.Log(chat));

      request := Some(CompletionRequest([Turn(UserSender, userMessage)], MaxTokens));
      if o.completion.Unreachable? || o.completion.body.Malformed? { return; }
      var aiMessage := ExtractReply(o.completion.body.data);

      ok := store.Insert(chat, Msg(uid, BotSender, aiMessage), o.botInsertOk);
      if !ok { return; }
      AppendTwice(old(store.logs), chat, [Msg(uid, UserSender, userMessage)], [Msg(uid, BotSender, aiMessage)]);
      assert Persisted(uid, userMessage, o) == [Msg(uid, UserSender, userMessage)] + [Msg(uid, BotSender, aiMessage)];
      if !o.secondRefetchOk { return; }
      data := Some(store.Log(chat));
    }
  }

  // ---------------------------------------------------------------------
  // Properties of the send flow.
  // ---------------------------------------------------------------------

  /** When every step succeeds the log grows by the user's message and then the bot's reply. */
  lemma FullSuccess(userId: string, text: string, o: SendOutcomes)
    requires o.userInsertOk && o.firstRefetchOk && o.botInsertOk
    requires o.completion.Responded? && o.completion.body.Parsed?
    ensures Persisted(userId, text, o)
      == [Msg(userId, UserSender, text), Msg(userId, BotSender, ExtractReply(o.completion.body.data))]
  {
  }

  /** An error answer without the reply path still stores the fallback as the bot's message:
      the HTTP status is never looked at. */
  lemma ErrorStatusPersistsFallback(userId: string, text: string, status: int, data: Option<Payload>)
    requires ContentAt(data).None?
    ensures Persisted(userId, text, SendOutcomes(true, true, Responded(status, Parsed(data)), true, true))
      == [Msg(userId, UserSender, text), Msg(userId, BotSender, Fallback)]
  {
  }

  /** Every bot message in the log comes right after a user message. */
  predicate BotFollowsUser(log: seq<Msg>) {
    forall i :: 0 <= i < |log| && log[i].sender == BotSender ==> 0 < i && log[i - 1].sender == UserSender
  }

  lemma PersistedKeepsBotFollowsUser(log: seq<Msg>, userId: string, text: string, o: SendOutcomes)
    requires BotFollowsUser(log)
    ensures BotFollowsUser(log + Persisted(userId, text, o))
  {
    var p := Persisted(userId, text, o);
    var l := log + p;
    forall i | 0 <= i < |l| && l[i].sender == BotSender
      ensures 0 < i && l[i - 1].sender == UserSender
    {
      if i < |log| {
        assert l[i] == log[i] && l[i - 1] == log[i - 1];
      } else if i > |log| {
        assert i == |log| + 1 && l[i - 1] == p[0];
      }
    }
  }

  /** One call of `handleSend`: the text in the box and the results of its steps. */
  datatype SendCall = SendCall(text: string, outcomes: SendOutcomes)

  /** A chat's log after one send by `userId`: a blank text stores nothing. */
  function AfterSend(log: seq<Msg>, userId: string, call: SendCall): (r: seq<Msg>)
    ensures |log| <= |r| <= |log| + 2 && r[..|log|] == log
    ensures Text.IsBlank(call.text) ==> r == log
  {
    if Text.IsBlank(call.text) then log else log + Persisted(userId, Text.Trim(call.text), call.outcomes)
  }

  /** A chat's log after a series of sends, one at a time, by the same user. */
  function Replay(log: seq<Msg>, userId: string, calls: seq<SendCall>): (r: seq<Msg>)
    ensures |log| <= |r| <= |log| + 2 * |calls|
    decreases |calls|
  {
    if calls == [] then log else Replay(AfterSend(log, userId, calls[0]), userId, calls[1..])
  }

  /** Sends only ever append: the log before is a prefix of the log after. */
  lemma {:induction false} ReplayAppendOnly(log: seq<Msg>, userId: string, calls: seq<SendCall>)
    ensures |log| <= |Replay(log, userId, calls)| && Replay(log, userId, calls)[..|log|] == log
    decreases |calls|
  {
    if calls != [] {
      var next := AfterSend(log, userId, calls[0]);
      ReplayAppendOnly(next, userId, calls[1..]);
      assert |log| <= |next| && next[..|log|] == log;
    }
  }

  /** However the steps fail, a log in which every bot message directly follows a
      user message (an empty one, say) keeps that shape over any series of sends. */
  lemma {:induction false} ReplayKeepsBotFollowsUser(log: seq<Msg>, userId: string, calls: seq<SendCall>)
    requires BotFollowsUser(log)
    ensures BotFollowsUser(Replay(log, userId, calls))
    decreases |calls|
  {
    if calls != [] {
      var c := calls[0];
      if !Text.IsBlank(c.text) {
        PersistedKeepsBotFollowsUser(log, userId, Text.Trim(c.text), c.outcomes);
      }
      ReplayKeepsBotFollowsUser(AfterSend(log, userId, c), userId, calls[1..]);
    }
  }

  /** Drawing a log drawn in two parts is drawing each part. */
  lemma {:induction false} BubblesAppend(a: seq<Msg>, b: seq<Msg>)
    ensures Bubbles(a + b) == Bubbles(a) + Bubbles(b)
    decreases |a|
  {
    if a == [] {
      assert a + b == b;
    } else {
      assert (a + b)[1..] == a[1..] + b;
      BubblesAppend(a[1..], b);
    }
  }

  /** After a send where every step succeeds, the pane draws the earlier messages
      unchanged, then the user's text on the user's side and the reply on the bot's. */
  lemma FullSuccessDrawn(log: seq<Msg>, userId: string, text: string, o: SendOutcomes)
    requires o.userInsertOk && o.firstRefetchOk && o.botInsertOk
    requires o.completion.Responded? && o.completion.body.Parsed?
    ensures Bubbles(log + Persisted(userId, text, o))
      == Bubbles(log) + [Bubble(UserSide, text), Bubble(BotSide, ExtractReply(o.completion.body.data))]
  {
    var p := Persisted(userId, text, o);
    BubblesAppend(log, p);
    assert p[1..][1..] == [];
  }
}
