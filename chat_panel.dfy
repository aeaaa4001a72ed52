/**
 * The chat panel's stream reconstructor: a socket delivers the assistant's
 * answer token by token, the panel accumulates the tokens and shows them in
 * the last assistant message, and the stream is taken as finished on a blank
 * token, on silence, on a hard timeout or when the socket goes away.
 */
module ChatPanel {
  import opened Wrappers
  import opened LogModel
  import opened JsText

  /** Milliseconds of silence after a token before the stream is taken as finished. */
  const IdleTimeoutMs: nat := 3000
  /** Milliseconds after a send before the streaming indicator is forced off. */
  const FallbackTimeoutMs: nat := 30000

  datatype Sender = User | Assistant

  /**
   * A chat message. Its id is the decimal text of the number `id`
   * (`Decimal.NatToDecimal(id)`); `timestamp` is the clock reading in milliseconds.
   */
  datatype Message = Message(id: nat, content: string, sender: Sender, timestamp: nat)

  /** The JSON object sent for one question. */
  datatype ChatPayload = ChatPayload(question: string, contextLogs: seq<Log>, activeFilters: map<string, string>)

  // ---------------------------------------------------------------------------
  // Filters as an object

  /** The object built from the filter list in order: a later filter overwrites an earlier one with the same key. */
  function FiltersObject(filters: seq<Filter>): map<string, string>
    decreases |filters|
  {
    if filters == [] then map[]
    else
      var last := filters[|filters| - 1];
      FiltersObject(filters[..|filters| - 1])[last.key := last.value]
  }

  /** The object's keys are exactly the keys of the filters. */
  lemma {:induction false} FiltersObjectKeys(filters: seq<Filter>)
    ensures forall k :: k in FiltersObject(filters) <==> exists i :: 0 <= i < |filters| && filters[i].key == k
    decreases |filters|
  {
    if filters != [] {
      var init := filters[..|filters| - 1];
      FiltersObjectKeys(init);
      forall k | k in FiltersObject(filters) ensures exists i :: 0 <= i < |filters| && filters[i].key == k {
        if k != filters[|filters| - 1].key {
          assert k in FiltersObject(init);
          var i :| 0 <= i < |init| && init[i].key == k;
          assert filters[i].key == k;
        }
      }
      forall k | exists i :: 0 <= i < |filters| && filters[i].key == k ensures k in FiltersObject(filters) {
        var i :| 0 <= i < |filters| && filters[i].key == k;
        if i < |filters| - 1 {
          assert init[i].key == k;
        }
      }
    }
  }

  /** Last value wins: a key maps to the value of the last filter in the list that has it. */
  lemma {:induction false} FiltersObjectLastWins(filters: seq<Filter>, i: nat)
    requires i < |filters|
    requires forall j :: i < j < |filters| ==> filters[j].key != filters[i].key
    ensures filters[i].key in FiltersObject(filters)
    ensures FiltersObject(filters)[filters[i].key] == filters[i].value
    decreases |filters|
  {
    if i < |filters| - 1 {
      var init := filters[..|filters| - 1];
      assert forall j :: i < j < |init| ==> init[j] == filters[j];
      FiltersObjectLastWins(init, i);
    }
  }

  /** The `reduce` over the filter list that fills an accumulator object one filter at a time. */
  method FlattenFilters(filters: seq<Filter>) returns (acc: map<string, string>)
    ensures acc == FiltersObject(filters)
  {
    acc := map[];
    var i := 0;
    while i < |filters|
      invariant 0 <= i <= |filters|
      invariant acc == FiltersObject(filters[..i])
    {
      assert filters[..i + 1][..i] == filters[..i];
      acc := acc[filters[i].key := filters[i].value];
      i := i + 1;
    }
    assert filters[..i] == filters;
  }

  // ---------------------------------------------------------------------------
  // Tokens

  /** The end-of-stream test on an incoming token, as written: empty, a blank line pair, or blank after trimming. */
  predicate IsEndOfStream(token: string) {
    token == "" || token == "\n\n" || Trim(token) == ""
  }

  /** A token ends the stream exactly when it consists of whitespace only. */
  lemma EndOfStreamIffBlank(token: string)
    ensures IsEndOfStream(token) <==> AllWhitespace(token)
  {
    TrimEmptyIffAllWhitespace(token);
    TrimEmptyIffAllWhitespace("\n\n");
  }

  /** The message list with the last message's content replaced, when that message is the assistant's. */
  function WithLastAssistantContent(messages: seq<Message>, content: string): (r: seq<Message>)
    ensures |r| == |messages|
    ensures forall i :: 0 <= i < |r| - 1 ==> r[i] == messages[i]
    ensures forall i :: 0 <= i < |r| ==> r[i].sender == messages[i].sender
    ensures messages != [] && messages[|messages| - 1].sender == Assistant ==>
              r[|r| - 1] == messages[|messages| - 1].(content := content)
    ensures (messages == [] || messages[|messages| - 1].sender != Assistant) ==> r == messages
  {
    if messages != [] && messages[|messages| - 1].sender == Assistant then
      messages[..|messages| - 1] + [messages[|messages| - 1].(content := content)]
    else
      messages
  }

  // ---------------------------------------------------------------------------
  // The session

  /** Who wrote the message at position `i` when messages come in question/answer pairs. */
  function SenderAt(i: nat): Sender {
    if i % 2 == 0 then User else Assistant
  }

  /** The messages form question/answer pairs: user, assistant, user, assistant, ... */
  ghost predicate Alternates(messages: seq<Message>) {
    |messages| % 2 == 0 && forall i :: 0 <= i < |messages| ==> messages[i].sender == SenderAt(i)
  }

  lemma AppendPairAlternates(messages: seq<Message>, question: Message, answer: Message)
    requires Alternates(messages) && question.sender == User && answer.sender == Assistant
    ensures Alternates(messages + [question, answer])
  {
    var r := messages + [question, answer];
    forall i | 0 <= i < |r| ensures r[i].sender == SenderAt(i) {
      if i < |messages| {
        assert r[i] == messages[i];
      }
    }
  }

  lemma LastIsAssistant(messages: seq<Message>)
    requires Alternates(messages) && messages != []
    ensures messages[|messages| - 1].sender == Assistant
  {
    assert (|messages| - 1) % 2 == 1;
  }

  lemma SameSendersAlternate(messages: seq<Message>, r: seq<Message>)
    requires Alternates(messages) && |r| == |messages|
    requires forall i :: 0 <= i < |r| ==> r[i].sender == messages[i].sender
    ensures Alternates(r)
  {
  }

  class ChatSession {
    var messages: seq<Message>
    var inputValue: string
    var isConnected: bool
    var isStreaming: bool
    /** A socket object is held (the socket reference is set). */
    var hasSocket: bool
    /** The held socket has completed its handshake; until then `send` on it throws. */
    var socketOpen: bool
    /** The text received so far for the current answer. */
    var currentResponse: string
    /** The 3-second silence timer is pending. */
    var idleTimerArmed: bool
    /** How many 30-second fallback timers are pending; they are never cancelled. */
    var pendingFallbacks: nat

    /**
     * Messages come in user/assistant pairs, the last message always shows
     * the accumulated answer without its leading whitespace, and a stream is
     * only ever open on an existing message.
     */
    ghost predicate Valid()
      reads this
    {
      && Alternates(messages)
      && (messages != [] ==> messages[|messages| - 1].content == TrimStart(currentResponse))
      && (isStreaming ==> messages != [])
    }

    /** The send guard: a non-blank input, a socket, a connection and no answer in progress. */
    predicate ReadyToSend()
      reads this
    {
      Trim(inputValue) != "" && hasSocket && isConnected && !isStreaming
    }

    constructor ()
      ensures Valid()
      ensures messages == [] && inputValue == "" && currentResponse == ""
      ensures !isConnected && !isStreaming && !hasSocket && !socketOpen && !idleTimerArmed && pendingFallbacks == 0
    {
      messages := [];
      inputValue := "";
      isConnected := false;
      isStreaming := false;
      hasSocket := false;
      socketOpen := false;
      currentResponse := "";
      idleTimerArmed := false;
      pendingFallbacks := 0;
    }

    /**
     * The panel-open effect: a socket is created when the panel is open and
     * none is held. A new socket is still connecting; a held one is kept as it is.
     */
    method Connect(isOpen: bool)
      modifies this`hasSocket, this`socketOpen
      ensures hasSocket == (old(hasSocket) || isOpen)
      ensures !old(hasSocket) && isOpen ==> !socketOpen
      ensures old(hasSocket) || !isOpen ==> socketOpen == old(socketOpen)
    {
      if isOpen && !hasSocket {
        hasSocket := true;
        socketOpen := false;
      }
    }

    /** The held socket's open event: its handshake is complete and the panel shows it connected. */
    method OnOpen()
      modifies this`isConnected, this`socketOpen
      ensures isConnected && socketOpen == hasSocket
    {
      isConnected := true;
      socketOpen := hasSocket;
    }

    /**
     * The effect's cleanup: the socket is closed and released and the silence
     * timer cleared. `isConnected` is left as it was until a close event arrives.
     */
    method Teardown()
      modifies this`hasSocket, this`socketOpen, this`idleTimerArmed
      ensures !hasSocket && !socketOpen && !idleTimerArmed
    {
      hasSocket := false;
      socketOpen := false;
      idleTimerArmed := false;
    }

    /** The socket's close or error event: disconnected, and any stream is over. */
    method OnDisconnect()
      requires Valid()
      modifies this`isConnected, this`isStreaming
      ensures Valid()
      ensures !isConnected && !isStreaming
    {
      isConnected := false;
      isStreaming := false;
    }

    /** Typing in the chat input. */
    method SetInput(value: string)
      modifies this`inputValue
      ensures inputValue == value
    {
      inputValue := value;
    }

    /**
     * A token arrives. A blank token ends the stream and changes nothing else.
     * Any other token is appended to the accumulator verbatim, the last
     * message (if it is the assistant's) shows the accumulator without its
     * leading whitespace, and the silence timer is re-armed. The streaming
     * flag is not consulted: a token after the stream ended is still shown.
     */
    method OnToken(token: string)
      requires Valid()
      modifies this`isStreaming, this`currentResponse, this`messages, this`idleTimerArmed
      ensures Valid()
      ensures IsEndOfStream(token) ==> && !isStreaming
                                       && currentResponse == old(currentResponse)
                                       && messages == old(messages)
                                       && idleTimerArmed == old(idleTimerArmed)
      ensures !IsEndOfStream(token) ==> && currentResponse == old(currentResponse) + token
                                        && messages == WithLastAssistantContent(old(messages), TrimStart(currentResponse))
                                        && isStreaming == old(isStreaming)
                                        && idleTimerArmed
      ensures !IsEndOfStream(token) && old(messages) != [] && old(messages)[|old(messages)| - 1].content != "" ==>
                messages[|messages| - 1].content == old(messages)[|old(messages)| - 1].content + token
    {
      if IsEndOfStream(token) {
        isStreaming := false;
        return;
      }
      TrimStartAppend(currentResponse, token);
      currentResponse := currentResponse + token;
      var updated := WithLastAssistantContent(messages, TrimStart(currentResponse));
      SameSendersAlternate(messages, updated);
      if messages != [] {
        LastIsAssistant(messages);
      }
      messages := updated;
      idleTimerArmed := true;
    }

    /** The silence timer fires, `IdleTimeoutMs` after the last token re-armed it. */
    method IdleTimeoutFired()
      requires Valid() && idleTimerArmed
      modifies this`isStreaming, this`idleTimerArmed
      ensures Valid()
      ensures !isStreaming && !idleTimerArmed
    {
      isStreaming := false;
      idleTimerArmed := false;
    }

    /** One of the fallback timers fires, `FallbackTimeoutMs` after the send that armed it. */
    method FallbackTimeoutFired()
      requires Valid() && pendingFallbacks > 0
      modifies this`isStreaming, this`pendingFallbacks
      ensures Valid()
      ensures !isStreaming && pendingFallbacks == old(pendingFallbacks) - 1
    {
      isStreaming := false;
      pendingFallbacks := pendingFallbacks - 1;
    }

    /**
     * Sending the input at clock reading `now`. Unless the guard holds nothing
     * happens. Otherwise the trimmed question and an empty assistant
     * placeholder are appended, the accumulator is reset and streaming starts.
     * On an open socket the payload, carrying the question, the context records
     * as given and the flattened filters, is sent, the input is cleared and a
     * fallback timer is armed. On a socket still connecting `send` throws, so
     * nothing is sent and the input and timers stay as they were.
     */
    method SendMessage(now: nat, contextLogs: seq<Log>, activeFilters: seq<Filter>) returns (sent: Option<ChatPayload>)
      requires Valid()
      modifies this`messages, this`currentResponse, this`isStreaming, this`inputValue, this`pendingFallbacks
      ensures Valid()
      ensures sent.Some? <==> old(ReadyToSend()) && old(socketOpen)
      ensures !old(ReadyToSend()) ==> && messages == old(messages) && currentResponse == old(currentResponse)
                                      && isStreaming == old(isStreaming)
      ensures old(ReadyToSend()) ==> && messages == old(messages) + [Message(now, Trim(old(inputValue)), User, now),
                                                                  Message(now + 1, "", Assistant, now)]
                                     && currentResponse == "" && isStreaming
      ensures sent.None? ==> inputValue == old(inputValue) && pendingFallbacks == old(pendingFallbacks)
      ensures sent.Some? ==> && inputValue == "" && pendingFallbacks == old(pendingFallbacks) + 1
                             && sent.value == ChatPayload(Trim(old(inputValue)), contextLogs, FiltersObject(activeFilters))
    {
      if !ReadyToSend() {
        return None;
      }
      var question := Trim(inputValue);
      var userMessage := Message(now, question, User, now);
      var assistantMessage := Message(now + 1, "", Assistant, now);
      AppendPairAlternates(messages, userMessage, assistantMessage);
      messages := messages + [userMessage, assistantMessage];
      currentResponse := "";
      isStreaming := true;
      if !socketOpen {
        return None;
      }
      var filtersObject := FlattenFilters(activeFilters);
      sent := Some(ChatPayload(question, contextLogs, filtersObject));
      inputValue := "";
      pendingFallbacks := pendingFallbacks + 1;
    }
  }

  // ---------------------------------------------------------------------------
  // A streamed answer, end to end

  /** A word token starts with a non-blank character, so it neither ends the stream nor is cut by `trimStart`. */
  lemma WordToken(token: string)
    requires token != [] && !IsWhitespace(token[0])
    ensures !IsEndOfStream(token) && TrimStart(token) == token
  {
    assert token != "\n\n";
    TrimEmptyIffAllWhitespace(token);
  }

  /**
   * The text of the scenario below: the padded question trims to its words,
   * no token ends the stream, and the tokens spell the answer.
   */
  lemma ScenarioText()
    ensures Trim(" What failed?\n") == "What failed?"
    ensures !IsEndOfStream("Hel") && !IsEndOfStream("lo wor") && !IsEndOfStream("ld")
    ensures TrimStart("Hel" + "lo wor" + "ld") == "Hello world"
  {
    PaddedQuestion();
    WordToken("Hel");
    WordToken("lo wor");
    WordToken("ld");
    AnswerTokens();
    WordToken("Hello world");
  }

  /** Words with a space before them and a line feed after them trim back to the words. */
  lemma TrimPadded(words: string)
    requires words != [] && !IsWhitespace(words[0]) && !IsWhitespace(words[|words| - 1])
    ensures Trim([' '] + words + ['\n']) == words
  {
    var s := [' '] + words + ['\n'];
    var t := words + ['\n'];
    assert s[1..] == t && t[0] == words[0];
    assert LeadingWhitespace(s) == 1;
    assert TrimStart(s) == t;
    assert t[..|t| - 1] == words && t[|t| - 1] == '\n';
    assert TrailingWhitespace(t) == 1;
  }

  /** The padded question of the scenario below trims to its words. */
  lemma PaddedQuestion()
    ensures Trim(" What failed?\n") == "What failed?"
  {
    assert " What failed?\n" == [' '] + "What failed?" + ['\n'];
    TrimPadded("What failed?");
  }

  /** The three tokens of the scenario below spell the answer. */
  lemma AnswerTokens()
    ensures "Hel" + "lo wor" + "ld" == "Hello world"
  {
  }

  /**
   * A fresh panel opens, its socket connects and the user sends `question`:
   * the trimmed question goes out with no context and no filters, and an
   * empty assistant bubble waits for the answer.
   */
  method AskOnFreshPanel(now: nat, question: string) returns (session: ChatSession, sent: Option<ChatPayload>)
    requires Trim(question) != ""
    ensures fresh(session) && session.Valid()
    ensures sent == Some(ChatPayload(Trim(question), [], map[]))
    ensures session.isStreaming && session.currentResponse == ""
    ensures session.messages != [] && session.messages[|session.messages| - 1].content == ""
  {
    session := new ChatSession();
    session.Connect(true);
    session.OnOpen();
    session.SetInput(question);
    assert FiltersObject([]) == map[];
    sent := session.SendMessage(now, [], []);
  }

  /** A token that does not end the stream arrives: it is appended to the answer and the silence timer is re-armed. */
  method ReceiveToken(session: ChatSession, token: string)
    requires session.Valid() && session.messages != [] && !IsEndOfStream(token)
    modifies session
    ensures session.Valid() && session.messages != [] && session.idleTimerArmed
    ensures session.currentResponse == old(session.currentResponse) + token
  {
    session.OnToken(token);
  }

  /**
   * An answer arrives in three tokens, none of which ends the stream, and the
   * silence timer then fires: the last message shows the accumulator grown
   * by the tokens, without leading whitespace, and the stream is over.
   */
  method ReceiveAnswer(session: ChatSession, a: string, b: string, c: string) returns (shown: string, streaming: bool)
    requires session.Valid() && session.messages != [] && session.currentResponse == ""
    requires !IsEndOfStream(a) && !IsEndOfStream(b) && !IsEndOfStream(c)
    modifies session
    ensures shown == TrimStart(a + b + c) && !streaming
  {
    ReceiveToken(session, a);
    EmptyConcat(a);
    ReceiveToken(session, b);
    ReceiveToken(session, c);
    session.IdleTimeoutFired();
    shown := session.messages[|session.messages| - 1].content;
    streaming := session.isStreaming;
  }

  /** A token appended to an empty accumulator. */
  lemma EmptyConcat(a: string)
    ensures "" + a == a
  {
  }

  /**
   * One question answered in three tokens on a fresh panel: the user sends a
   * padded question, the answer streams in and the silence timer closes the
   * stream. The question goes out trimmed and the assistant bubble shows the
   * tokens joined.
   */
  method StreamedAnswer(now: nat) returns (sent: Option<ChatPayload>, shown: string, streaming: bool)
    ensures sent == Some(ChatPayload("What failed?", [], map[]))
    ensures shown == "Hello world" && !streaming
  {
    ScenarioText();
    var session;
    session, sent := AskOnFreshPanel(now, " What failed?\n");
    shown, streaming := ReceiveAnswer(session, "Hel", "lo wor", "ld");
  }

  // ---------------------------------------------------------------------------
  // A send while the socket reconnects

  /**
   * The panel is closed and reopened before the old socket's close event
   * arrives, and the user sends at once: the panel still shows itself
   * connected, so the guard passes, but the new socket is still connecting and
   * `send` throws. The question bubble and an empty answer bubble are shown
   * and streaming has started, yet nothing went out, the input is kept and no
   * fallback timer is armed.
   */
  method SendWhileReconnecting(now: nat, question: string) returns (session: ChatSession, sent: Option<ChatPayload>)
    requires Trim(question) != ""
    ensures fresh(session) && session.Valid()
    ensures sent.None?
    ensures |session.messages| == 2 && session.messages[0].content == Trim(question)
    ensures session.isStreaming && session.inputValue == question && session.pendingFallbacks == 0
  {
    session := new ChatSession();
    session.Connect(true);
    session.OnOpen();
    session.Teardown();
    session.Connect(true);
    session.SetInput(question);
    sent := session.SendMessage(now, [], []);
  }
}
