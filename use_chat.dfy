/** The investigation chat's state: the message list, the busy flags, the
    current chat id, the transaction id typed on the new-chat screen, and
    the guard against starting the same transaction's chat twice. Each
    asynchronous handler is split at its `await`: a method for what happens
    at once, and one for what happens when the call returns, which receives
    the call's outcome (and the clock reading an id is made from) as
    parameters. */
module UseChat {
  import opened Base
  import opened Text

  datatype Role = UserRole | BotRole

  /** A message as the chat shows it (its timestamp is left out). */
  datatype LocalMessage = LocalMessage(id: string, role: Role, content: string, reasoning: Option<string>)

  /** A message as the server returns it. */
  datatype ServerMessage = ServerMessage(role: string, seqNo: int, content: string, reasoning: Option<string>)

  /** The server's reply to a start or a send. */
  datatype ChatReply = ChatReply(chat_id: string, message: ServerMessage)

  /** A call's outcome: its value, or the error's message. */
  datatype Outcome<T> = Succeeded(value: T) | Failed(error: string)

  const START_HINT: string := "\n\nMake sure the transaction exists in the database. You can use the Data Filler to generate transactions first."

  /** The bot's rendering of a server reply, with id `b-<seq>`. */
  function BotMessage(m: ServerMessage): (r: LocalMessage)
    ensures r.role == BotRole && r.content == m.content && r.reasoning == m.reasoning
    ensures r.id == "b-" + IntToString(m.seqNo)
  {
    LocalMessage("b-" + IntToString(m.seqNo), BotRole, m.content, m.reasoning)
  }

  /** The error shown when a start fails. */
  function StartError(error: string): LocalMessage {
    LocalMessage("error", BotRole, "❌ Failed to start chat: " + error + START_HINT, None)
  }

  /** The error appended when a send fails. */
  function SendError(error: string, now: int): LocalMessage {
    LocalMessage("err-" + IntToString(now), BotRole, "❌ Error: " + error, None)
  }

  /** The messages a successful start shows: the opening question as `u-0`
      when one was given, then the bot's answer. */
  function StartMessages(initial: Option<string>, reply: ServerMessage): (msgs: seq<LocalMessage>)
    ensures |msgs| == if Truthy(initial) then 2 else 1
    ensures msgs[|msgs| - 1] == BotMessage(reply)
    ensures Truthy(initial) ==> msgs[0] == LocalMessage("u-0", UserRole, initial.value, None)
    ensures forall i :: 0 <= i < |msgs| - 1 ==> msgs[i].role == UserRole
  {
    (if Truthy(initial) then [LocalMessage("u-0", UserRole, initial.value, None)] else []) + [BotMessage(reply)]
  }

  /** The history's message as loaded: `assistant` is the bot, any other
      role the user, and the id is `<role>-<seq>`. */
  function Loaded(m: ServerMessage): (r: LocalMessage)
    ensures r.role == BotRole <==> m.role == "assistant"
    ensures r.content == m.content && r.reasoning == m.reasoning
    ensures r.id == m.role + "-" + IntToString(m.seqNo)
    ensures |r.id| > |m.role| && StartsWith(r.id, m.role) && r.id[|m.role|] == '-'
  {
    var id := m.role + "-" + IntToString(m.seqNo);
    assert id[..|m.role|] == m.role;
    LocalMessage(id, if m.role == "assistant" then BotRole else UserRole, m.content, m.reasoning)
  }

  /** The loaded history: one message per server message, in order. */
  function LoadHistory(h: seq<ServerMessage>): (r: seq<LocalMessage>)
    ensures |r| == |h|
    ensures forall i :: 0 <= i < |h| ==> r[i] == Loaded(h[i])
  {
    seq(|h|, i requires 0 <= i < |h| => Loaded(h[i]))
  }

  /** The number of bot messages in a list. */
  function BotCount(msgs: seq<LocalMessage>): nat {
    if |msgs| == 0 then 0 else BotCount(msgs[..|msgs| - 1]) + (if msgs[|msgs| - 1].role == BotRole then 1 else 0)
  }

  /** The number of assistant entries in a history. */
  function AssistantCount(h: seq<ServerMessage>): nat {
    if |h| == 0 then 0 else AssistantCount(h[..|h| - 1]) + (if h[|h| - 1].role == "assistant" then 1 else 0)
  }

  /** Loading a history shows exactly as many bot messages as it has
      assistant entries. */
  lemma {:induction false} LoadHistoryBots(h: seq<ServerMessage>)
    ensures BotCount(LoadHistory(h)) == AssistantCount(h)
  {
    if |h| > 0 {
      var init := h[..|h| - 1];
      LoadHistoryBots(init);
      assert LoadHistory(h)[..|h| - 1] == LoadHistory(init);
    }
  }

  /** Loading distributes over concatenation: a longer history extends the
      list it shows. */
  lemma LoadHistoryAppend(a: seq<ServerMessage>, b: seq<ServerMessage>)
    ensures LoadHistory(a + b) == LoadHistory(a) + LoadHistory(b)
  {
    var l, la, lb := LoadHistory(a + b), LoadHistory(a), LoadHistory(b);
    forall i | 0 <= i < |a + b| ensures l[i] == (la + lb)[i] {
      if i < |a| {
        assert (a + b)[i] == a[i];
      } else {
        assert (a + b)[i] == b[i - |a|];
      }
    }
  }

  class Chat {
    var messages: seq<LocalMessage>
    var isTyping: bool
    var isLoadingChat: bool
    var chatId: Option<string>
    var txnIdInput: string
    var showNewChat: bool
    /** The transaction whose chat is being started. */
    var startingTxn: Option<string>

    constructor ()
      ensures messages == [] && !isTyping && !isLoadingChat && chatId == None
      ensures txnIdInput == "" && showNewChat && startingTxn == None
    {
      messages, isTyping, isLoadingChat, chatId := [], false, false, None;
      txnIdInput, showNewChat, startingTxn := "", true, None;
    }

    method SetTxnIdInput(t: string)
      modifies this
      ensures txnIdInput == t
      ensures messages == old(messages) && isTyping == old(isTyping) && isLoadingChat == old(isLoadingChat)
      ensures chatId == old(chatId) && showNewChat == old(showNewChat) && startingTxn == old(startingTxn)
    {
      txnIdInput := t;
    }

    /** `handleStartChat` up to its call: a blank id, or the id already
        being started, changes nothing; otherwise the new-chat screen
        closes, the list empties, the bot types and no chat is current. */
    method BeginStart(id: string) returns (started: bool)
      modifies this
      ensures started <==> !IsBlank(id) && old(startingTxn) != Some(id)
      ensures !started ==> messages == old(messages) && isTyping == old(isTyping) && chatId == old(chatId)
                           && showNewChat == old(showNewChat) && startingTxn == old(startingTxn)
      ensures started ==> messages == [] && isTyping && chatId == None && !showNewChat && startingTxn == Some(id)
      ensures isLoadingChat == old(isLoadingChat) && txnIdInput == old(txnIdInput)
    {
      TrimEmptyIffBlank(id);
      if Trim(id) == "" {
        return false;
      }
      if startingTxn == Some(id) {
        return false;
      }
      startingTxn := Some(id);
      showNewChat := false;
      messages := [];
      isTyping := true;
      chatId := None;
      started := true;
    }

    /** `handleStartChat` after its call: on success the chat is current and
        shows the opening question (if any) and the answer; on failure no
        chat is current, the new-chat screen returns and a single error
        message shows. Either way the bot stops typing and the guard is
        released. */
    method FinishStart(initial: Option<string>, outcome: Outcome<ChatReply>)
      modifies this
      ensures outcome.Succeeded? ==> chatId == Some(outcome.value.chat_id) && messages == StartMessages(initial, outcome.value.message)
                                     && showNewChat == old(showNewChat)
      ensures outcome.Failed? ==> chatId == None && showNewChat && messages == [StartError(outcome.error)]
      ensures !isTyping && startingTxn == None
      ensures isLoadingChat == old(isLoadingChat) && txnIdInput == old(txnIdInput)
    {
      match outcome {
        case Succeeded(reply) =>
          chatId := Some(reply.chat_id);
          var msgs: seq<LocalMessage> := [];
          if Truthy(initial) {
            msgs := msgs + [LocalMessage("u-0", UserRole, initial.value, None)];
          }
          msgs := msgs + [BotMessage(reply.message)];
          messages := msgs;
        case Failed(error) =>
          chatId := None;
          showNewChat := true;
          messages := [StartError(error)];
      }
      isTyping := false;
      startingTxn := None;
    }

    /** `handleSend` up to its call. Without a current chat nothing is
        appended: the typed transaction id, if any, starts a chat with the
        content as its opening question (`start` says which). With one, the
        user's message `u-<now>` is appended and the bot types. */
    method BeginSend(content: string, now: int) returns (start: Option<(string, string)>, started: bool)
      modifies this
      ensures !Truthy(old(chatId)) ==> start == (if old(txnIdInput) != "" then Some((old(txnIdInput), content)) else None)
      ensures !Truthy(old(chatId)) && start.None? ==>
                !started && messages == old(messages) && isTyping == old(isTyping)
                && chatId == old(chatId) && showNewChat == old(showNewChat) && startingTxn == old(startingTxn)
      ensures !Truthy(old(chatId)) && start.Some? ==>
                (started <==> !IsBlank(old(txnIdInput)) && old(startingTxn) != Some(old(txnIdInput)))
                && (started ==> messages == [] && isTyping && chatId == None && !showNewChat && startingTxn == Some(old(txnIdInput)))
                && (!started ==> messages == old(messages) && isTyping == old(isTyping) && chatId == old(chatId)
                                 && showNewChat == old(showNewChat) && startingTxn == old(startingTxn))
      ensures Truthy(old(chatId)) ==>
                start == None && !started && isTyping && chatId == old(chatId)
                && messages == old(messages) + [LocalMessage("u-" + IntToString(now), UserRole, content, None)]
                && showNewChat == old(showNewChat) && startingTxn == old(startingTxn)
      ensures isLoadingChat == old(isLoadingChat) && txnIdInput == old(txnIdInput)
    {
      started := false;
      if !Truthy(chatId) {
        if txnIdInput != "" {
          start := Some((txnIdInput, content));
          started := BeginStart(txnIdInput);
        } else {
          start := None;
        }
        return;
      }
      start := None;
      messages := messages + [LocalMessage("u-" + IntToString(now), UserRole, content, None)];
      isTyping := true;
    }

    /** `handleSend` after its call: exactly one message is appended, the
        bot's answer or the error; the bot stops typing. */
    method FinishSend(outcome: Outcome<ChatReply>, now: int)
      modifies this
      ensures outcome.Succeeded? ==> messages == old(messages) + [BotMessage(outcome.value.message)]
      ensures outcome.Failed? ==> messages == old(messages) + [SendError(outcome.error, now)]
      ensures !isTyping
      ensures chatId == old(chatId) && showNewChat == old(showNewChat) && startingTxn == old(startingTxn)
      ensures isLoadingChat == old(isLoadingChat) && txnIdInput == old(txnIdInput)
    {
      match outcome {
        case Succeeded(reply) =>
          messages := messages + [BotMessage(reply.message)];
        case Failed(error) =>
          messages := messages + [SendError(error, now)];
      }
      isTyping := false;
    }

    /** `handleLoadChat` up to its call: the session becomes current with an
        empty list while it loads. */
    method BeginLoad(sessionId: string)
      modifies this
      ensures !showNewChat && messages == [] && isLoadingChat && chatId == Some(sessionId)
      ensures isTyping == old(isTyping) && txnIdInput == old(txnIdInput) && startingTxn == old(startingTxn)
    {
      showNewChat := false;
      messages := [];
      isLoadingChat := true;
      chatId := Some(sessionId);
    }

    /** `handleLoadChat` after its call: the loaded history, or the list
        unchanged when loading failed; loading ends either way. */
    method FinishLoad(history: Option<seq<ServerMessage>>)
      modifies this
      ensures history.Some? ==> messages == LoadHistory(history.value)
      ensures history.None? ==> messages == old(messages)
      ensures !isLoadingChat
      ensures chatId == old(chatId) && showNewChat == old(showNewChat) && isTyping == old(isTyping)
      ensures txnIdInput == old(txnIdInput) && startingTxn == old(startingTxn)
    {
      if history.Some? {
        messages := LoadHistory(history.value);
      }
      isLoadingChat := false;
    }

    /** `handleDeleteChat` up to its call: the delete goes ahead only when
        confirmed, and the handler keeps the chat id that was current at the
        click, which it compares after the call. Nothing changes yet. */
    method BeginDelete(confirmed: bool) returns (proceed: bool, clickChatId: Option<string>)
      ensures proceed == confirmed
      ensures clickChatId == chatId
    {
      proceed := confirmed;
      clickChatId := chatId;
    }

    /** `handleDeleteChat` after its call: when the delete succeeded and the
        chat current at the click was the deleted one, the view is reset,
        whatever chat is current now; a failed delete, or the deletion of a
        chat that was not current at the click, changes nothing. */
    method FinishDelete(clickChatId: Option<string>, target: string, deleted: bool)
      modifies this
      ensures deleted && clickChatId == Some(target) ==> chatId == None && messages == [] && showNewChat
      ensures !(deleted && clickChatId == Some(target)) ==>
                chatId == old(chatId) && messages == old(messages) && showNewChat == old(showNewChat)
      ensures isTyping == old(isTyping) && isLoadingChat == old(isLoadingChat)
      ensures txnIdInput == old(txnIdInput) && startingTxn == old(startingTxn)
    {
      if deleted && clickChatId == Some(target) {
        chatId := None;
        messages := [];
        showNewChat := true;
      }
    }

    /** `handleNewChat`. */
    method NewChat()
      modifies this
      ensures showNewChat && chatId == None && messages == []
      ensures isTyping == old(isTyping) && isLoadingChat == old(isLoadingChat)
      ensures txnIdInput == old(txnIdInput) && startingTxn == old(startingTxn)
    {
      showNewChat := true;
      chatId := None;
      messages := [];
    }
  }

  /** A start in progress blocks a second start of the same transaction
      until it finishes. */
  method StartGuard(c: Chat, id: string, initial: Option<string>, outcome: Outcome<ChatReply>)
    returns (first: bool, second: bool, third: bool)
    requires !IsBlank(id) && c.startingTxn == None
    modifies c
    ensures first && !second && third
    ensures c.startingTxn == None
  {
    first := c.BeginStart(id);
    second := c.BeginStart(id);
    c.FinishStart(initial, outcome);
    third := c.BeginStart(id);
    c.FinishStart(initial, outcome);
  }

  /** The comparison after the call uses the chat id of the click, not the
      current one: a chat opened and loaded while the delete of the previous
      chat is awaited is closed and emptied when the delete completes. */
  method DeleteDuringLoad(c: Chat, target: string, other: string, history: seq<ServerMessage>)
    returns (loadedId: Option<string>, loaded: seq<LocalMessage>)
    requires c.chatId == Some(target)
    modifies c
    ensures loadedId == Some(other) && loaded == LoadHistory(history)
    ensures c.chatId == None && c.messages == [] && c.showNewChat
  {
    var proceed, clickChatId := c.BeginDelete(true);
    c.BeginLoad(other);
    c.FinishLoad(Some(history));
    loadedId, loaded := c.chatId, c.messages;
    c.FinishDelete(clickChatId, target, proceed);
  }
}
