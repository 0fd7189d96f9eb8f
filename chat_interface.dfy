/**
 * The chat screen's state (frontend/src/components/ChatInterface.tsx): the
 * send gate with its two-message usage limit, the request it sends, and the
 * reducer that folds streamed chunks into the message list.
 */
module Client {
  import opened Options
  import opened Text
  import opened Schemas

  /** A mounted chat screen accepts at most this many sends. */
  const MaxUserMessages := 2
  const StreamErrorText := "I encountered an error while processing your request. Please try again later."
  const DefaultLanguage := "English"

  /** What `!input.trim()` tests: the input is empty or only whitespace. */
  predicate IsBlank(text: string)
  {
    AllSatisfy(text, IsJsSpace)
  }

  /** IsBlank is exactly "trimming leaves the empty string". */
  lemma BlankIffTrimmedEmpty(text: string)
    ensures IsBlank(text) <==> JsTrim(text) == ""
  {
    StripEmptyIffAllSatisfy(text, IsJsSpace);
  }

  predicate EndsWithAssistant(messages: seq<Message>)
  {
    |messages| > 0 && messages[|messages| - 1].role == Assistant
  }

  /**
   * The updater passed to setMessages for one chunk: extend the trailing
   * assistant message, or start a new assistant message with the chunk.
   */
  function ApplyChunk(prev: seq<Message>, chunk: string): (next: seq<Message>)
    ensures EndsWithAssistant(prev) ==>
              |next| == |prev|
              && next[..|prev| - 1] == prev[..|prev| - 1]
              && next[|prev| - 1] == Message(Assistant, prev[|prev| - 1].content + chunk)
    ensures !EndsWithAssistant(prev) ==> next == prev + [Message(Assistant, chunk)]
  {
    if EndsWithAssistant(prev) then
      var last := prev[|prev| - 1];
      prev[|prev| - 1 := Message(last.role, last.content + chunk)]
    else
      prev + [Message(Assistant, chunk)]
  }

  /** The message list after the updaters of chunks, applied in delivery order. */
  function ApplyChunks(prev: seq<Message>, chunks: seq<string>): (next: seq<Message>)
    ensures |prev| <= |next| <= |prev| + 1
    ensures chunks != [] ==> EndsWithAssistant(next)
    ensures |prev| >= 1 ==> next[..|prev| - 1] == prev[..|prev| - 1]
  {
    if chunks == [] then prev
    else ApplyChunk(ApplyChunks(prev, chunks[..|chunks| - 1]), chunks[|chunks| - 1])
  }

  /** One chunk after an assistant message is appended to its content. */
  lemma ApplyChunkExtendsLast(base: seq<Message>, content: string, chunk: string)
    ensures ApplyChunk(base + [Message(Assistant, content)], chunk) == base + [Message(Assistant, content + chunk)]
  {
    var prev := base + [Message(Assistant, content)];
    assert prev[..|prev| - 1] == base;
  }

  /** Chunks after an assistant message all land in it: the earlier messages are untouched. */
  lemma {:induction false} ChunksExtendAssistant(base: seq<Message>, content: string, chunks: seq<string>)
    ensures ApplyChunks(base + [Message(Assistant, content)], chunks)
            == base + [Message(Assistant, content + Concat(chunks))]
  {
    if chunks == [] {
      assert content + Concat(chunks) == content;
    } else {
      var init := chunks[..|chunks| - 1];
      var c := chunks[|chunks| - 1];
      ChunksExtendAssistant(base, content, init);
      ApplyChunkExtendsLast(base, content + Concat(init), c);
      assert chunks == init + [c];
      ConcatAppend(init, c);
      assert (content + Concat(init)) + c == content + Concat(chunks);
      assert ApplyChunks(base + [Message(Assistant, content)], chunks)
             == ApplyChunk(base + [Message(Assistant, content + Concat(init))], c);
    }
  }

  /**
   * After a user message (or on an empty list), chunks c1..cn with n >= 1
   * make exactly one new assistant message, whose content is c1 + ... + cn.
   */
  lemma ChunksFormOneAssistantMessage(prev: seq<Message>, chunks: seq<string>)
    requires !EndsWithAssistant(prev) && chunks != []
    ensures ApplyChunks(prev, chunks) == prev + [Message(Assistant, Concat(chunks))]
  {
    var rest := chunks[1..];
    ApplyChunksSplit(prev, [chunks[0]], rest);
    assert [chunks[0]] + rest == chunks;
    assert ApplyChunks(prev, [chunks[0]]) == prev + [Message(Assistant, chunks[0])] by {
      assert [chunks[0]][..0] == [];
    }
    ChunksExtendAssistant(prev, chunks[0], rest);
  }

  /** Applying two batches of chunks one after the other is applying their concatenation. */
  lemma {:induction false} ApplyChunksSplit(prev: seq<Message>, xs: seq<string>, ys: seq<string>)
    ensures ApplyChunks(prev, xs + ys) == ApplyChunks(ApplyChunks(prev, xs), ys)
    decreases |ys|
  {
    if ys == [] {
      assert xs + ys == xs;
    } else {
      var init := ys[..|ys| - 1];
      ApplyChunksSplit(prev, xs, init);
      assert (xs + ys)[..|xs + ys| - 1] == xs + init;
    }
  }

  /** Number of messages with the given role. */
  function CountRole(messages: seq<Message>, role: Role): (n: nat)
    ensures n <= |messages|
  {
    if messages == [] then 0
    else CountRole(messages[..|messages| - 1], role) + (if messages[|messages| - 1].role == role then 1 else 0)
  }

  /** Appending a message adds one to the count of its role, and nothing to the others. */
  lemma CountRoleAppend(messages: seq<Message>, m: Message, role: Role)
    ensures CountRole(messages + [m], role) == CountRole(messages, role) + (if m.role == role then 1 else 0)
  {
    assert (messages + [m])[..|messages|] == messages;
  }

  /** The reducer never adds or removes a user message. */
  lemma {:induction false} ChunksKeepUserCount(prev: seq<Message>, chunks: seq<string>)
    ensures CountRole(ApplyChunks(prev, chunks), User) == CountRole(prev, User)
  {
    if chunks != [] {
      var before := ApplyChunks(prev, chunks[..|chunks| - 1]);
      ChunksKeepUserCount(prev, chunks[..|chunks| - 1]);
      if EndsWithAssistant(before) {
        var after := ApplyChunk(before, chunks[|chunks| - 1]);
        assert after[..|after| - 1] == before[..|before| - 1];
      } else {
        var after := ApplyChunk(before, chunks[|chunks| - 1]);
        assert after[..|after| - 1] == before;
      }
    }
  }

  class ChatInterface {
    var messages: seq<Message>
    var input: string
    var isLoading: bool
    var language: string
    var userMessageCount: nat
    var showLimitModal: bool

    /** The usage limit holds, and every user message on screen was counted. */
    ghost predicate Valid()
      reads this
    {
      userMessageCount <= MaxUserMessages && CountRole(messages, User) <= userMessageCount
    }

    constructor ()
      ensures Valid()
      ensures messages == [] && input == "" && !isLoading && language == DefaultLanguage
      ensures userMessageCount == 0 && !showLimitModal
    {
      messages := [];
      input := "";
      isLoading := false;
      language := DefaultLanguage;
      userMessageCount := 0;
      showLimitModal := false;
    }

    /** Typing in the input box, or picking a suggested question. */
    method SetInput(text: string)
      requires Valid()
      modifies this`input
      ensures Valid()
      ensures input == text
    {
      input := text;
    }

    /** Choosing a language in the selector. */
    method SelectLanguage(choice: string)
      requires Valid()
      modifies this`language
      ensures Valid()
      ensures language == choice
    {
      language := choice;
    }

    /**
     * handleSend up to the request: the gate, the limit, the new user message.
     * Returns the request sent to the backend, if any.
     */
    method HandleSend() returns (request: Option<ChatRequest>)
      requires Valid()
      modifies this
      ensures Valid()
      ensures language == old(language)
      // blank input or a send in flight: nothing changes
      ensures IsBlank(old(input)) || old(isLoading) ==>
                request.None? && messages == old(messages) && input == old(input) && isLoading == old(isLoading)
                && userMessageCount == old(userMessageCount) && showLimitModal == old(showLimitModal)
      // limit reached: only the limit modal is raised
      ensures !IsBlank(old(input)) && !old(isLoading) && old(userMessageCount) >= MaxUserMessages ==>
                request.None? && showLimitModal && messages == old(messages) && input == old(input)
                && isLoading == old(isLoading) && userMessageCount == old(userMessageCount)
      // accepted: one user message with the untrimmed input; the history is the list before it
      ensures !IsBlank(old(input)) && !old(isLoading) && old(userMessageCount) < MaxUserMessages ==>
                request == Some(ChatRequest(old(input), old(language), old(messages)))
                && messages == old(messages) + [Message(User, old(input))]
                && input == "" && isLoading && userMessageCount == old(userMessageCount) + 1
                && showLimitModal == old(showLimitModal)
    {
      if IsBlank(input) || isLoading {
        return None;
      }
      if userMessageCount >= MaxUserMessages {
        showLimitModal := true;
        return None;
      }
      var userMessage := Message(User, input);
      CountRoleAppend(messages, userMessage, User);
      request := Some(ChatRequest(userMessage.content, language, messages));
      messages := messages + [userMessage];
      input := "";
      isLoading := true;
      userMessageCount := userMessageCount + 1;
    }

    /**
     * The rest of handleSend: each chunk delivered by the stream goes through
     * the reducer; a failed stream adds a separate error message; loading ends
     * in every case.
     */
    method ReceiveStream(chunks: seq<string>, failed: bool)
      requires Valid()
      modifies this`messages, this`isLoading
      ensures Valid()
      ensures messages == ApplyChunks(old(messages), chunks) + (if failed then [Message(Assistant, StreamErrorText)] else [])
      ensures !isLoading
    {
      for i := 0 to |chunks|
        invariant messages == ApplyChunks(old(messages), chunks[..i])
      {
        assert chunks[..i + 1][..i] == chunks[..i];
        messages := ApplyChunk(messages, chunks[i]);
      }
      assert chunks[..|chunks|] == chunks;
      ChunksKeepUserCount(old(messages), chunks);
      if failed {
        var errorMessage := Message(Assistant, StreamErrorText);
        messages := messages + [errorMessage];
      }
      isLoading := false;
    }

    /** Ending the chat empties the list; the usage count is kept. */
    method HandleEndChat()
      requires Valid()
      modifies this`messages
      ensures Valid()
      ensures messages == []
    {
      messages := [];
    }
  }
}
