/**
 * The session logic of the two Streamlit front ends, app.py and new.py: the
 * answer extraction, the ten-message history window, the reset button and
 * the per-turn message appends. new.py adds the translation of the answer.
 *
 * The conversational retrieval chain is a parameter: given the question, the
 * trimmed history and the window memory, it answers with the raw model output
 * and the memory it leaves behind, or raises.
 */
module StreamlitSession {
  import opened Options
  import opened Text
  import opened Schemas
  import opened Providers

  const AnswerMarker := "ANSWER:"
  /** get_trimmed_chat_history keeps this many most recent messages. */
  const MaxHistory := 10
  const DefaultLanguage := "English"

  /** The text after the first "ANSWER:", stripped; the whole response when there is none. */
  function ExtractAnswer(fullResponse: string): (answer: string)
    ensures |answer| <= |fullResponse|
    ensures (forall j :: !OccursAt(fullResponse, AnswerMarker, j)) ==> answer == fullResponse
  {
    match Find(fullResponse, AnswerMarker)
    case Some(start) => PyStrip(fullResponse[start + |AnswerMarker|..])
    case None => fullResponse
  }

  /**
   * When "ANSWER:" first occurs at i, the answer is what follows that
   * occurrence, without leading or trailing whitespace.
   */
  lemma ExtractAnswerAfterFirstMarker(fullResponse: string, i: nat)
    requires OccursAt(fullResponse, AnswerMarker, i)
    requires forall j :: 0 <= j < i ==> !OccursAt(fullResponse, AnswerMarker, j)
    ensures ExtractAnswer(fullResponse) == PyStrip(fullResponse[i + |AnswerMarker|..])
    ensures var a := ExtractAnswer(fullResponse);
            a == [] || (!IsPythonSpace(a[0]) && !IsPythonSpace(a[|a| - 1]))
  {
    var found := Find(fullResponse, AnswerMarker);
    assert found.Some?;
    assert found.value == i;
  }

  /** The last min(10, n) messages, in their original order. */
  function TrimmedHistory(messages: seq<Message>): (window: seq<Message>)
    ensures |window| == if |messages| < MaxHistory then |messages| else MaxHistory
    ensures window == messages[|messages| - |window|..]
  {
    if |messages| <= MaxHistory then messages else messages[|messages| - MaxHistory..]
  }

  /** The window taken right after appending a message ends with that message. */
  lemma TrimmedHistoryEndsWithLatest(messages: seq<Message>, latest: Message)
    ensures var window := TrimmedHistory(messages + [latest]);
            |window| >= 1 && window[|window| - 1] == latest
  {
  }

  /**
   * new.py's language switch: exactly "English" keeps the answer; any other
   * choice asks the translator for the lower-cased language, and a translator
   * exception is not caught (None).
   */
  function LocalizedAnswer(answer: string, selectedLanguage: string,
                           translate: (string, string) -> Translation): (r: Option<string>)
    ensures selectedLanguage == DefaultLanguage ==> r == Some(answer)
    ensures selectedLanguage != DefaultLanguage ==>
              match translate(Lower(selectedLanguage), answer)
              case Translated(t) => r == Some(t)
              case TranslationFailed(_) => r.None?
  {
    if selectedLanguage == DefaultLanguage then Some(answer)
    else
      match translate(Lower(selectedLanguage), answer)
      case Translated(t) => Some(t)
      case TranslationFailed(_) => None
  }

  /** The answer of the conversational retrieval chain, or its exception. */
  datatype ChainOutcome = ChainAnswer(answer: string, memory: seq<Message>) | ChainFailed(reason: string)

  class Session {
    /** st.session_state.messages */
    var messages: seq<Message>
    /** The turns held by st.session_state.memory, the chain's window memory. */
    var memory: seq<Message>

    constructor ()
      ensures messages == [] && memory == []
    {
      messages := [];
      memory := [];
    }

    /** reset_conversation: both the message list and the memory end empty. */
    method ResetConversation()
      modifies this
      ensures messages == [] && memory == []
    {
      messages := [];
      memory := [];
    }

    /**
     * One run of app.py with a submitted prompt: append the user message, ask
     * the chain with the trimmed history, append the extracted answer. An
     * exception from the chain ends the run after the user message.
     */
    method Turn(inputPrompt: string, qa: (string, seq<Message>, seq<Message>) -> ChainOutcome)
      modifies this
      ensures inputPrompt == "" ==> messages == old(messages) && memory == old(memory)
      ensures inputPrompt != "" ==>
                var withUser := old(messages) + [Message(User, inputPrompt)];
                match qa(inputPrompt, TrimmedHistory(withUser), old(memory))
                case ChainFailed(_) => messages == withUser && memory == old(memory)
                case ChainAnswer(answer, mem) =>
                  messages == withUser + [Message(Assistant, ExtractAnswer(answer))] && memory == mem
    {
      if inputPrompt == "" {
        return;
      }
      messages := messages + [Message(User, inputPrompt)];
      var trimmedHistory := TrimmedHistory(messages);
      var result := qa(inputPrompt, trimmedHistory, memory);
      if result.ChainFailed? {
        return;
      }
      memory := result.memory;
      var answer := ExtractAnswer(result.answer);
      messages := messages + [Message(Assistant, answer)];
    }

    /**
     * One run of new.py with a submitted prompt: as in app.py, but the stored
     * answer is the localized one. A translator exception ends the run after
     * the chain has answered, so only the user message is added.
     */
    method TranslatedTurn(inputPrompt: string, selectedLanguage: string,
                          qa: (string, seq<Message>, seq<Message>) -> ChainOutcome,
                          translate: (string, string) -> Translation)
      modifies this
      ensures inputPrompt == "" ==> messages == old(messages) && memory == old(memory)
      ensures inputPrompt != "" ==>
                var withUser := old(messages) + [Message(User, inputPrompt)];
                match qa(inputPrompt, TrimmedHistory(withUser), old(memory))
                case ChainFailed(_) => messages == withUser && memory == old(memory)
                case ChainAnswer(answer, mem) =>
                  memory == mem
                  && match LocalizedAnswer(ExtractAnswer(answer), selectedLanguage, translate)
                     case None => messages == withUser
                     case Some(shown) => messages == withUser + [Message(Assistant, shown)]
    {
      if inputPrompt == "" {
        return;
      }
      messages := messages + [Message(User, inputPrompt)];
      var trimmedHistory := TrimmedHistory(messages);
      var result := qa(inputPrompt, trimmedHistory, memory);
      if result.ChainFailed? {
        return;
      }
      memory := result.memory;
      var answer := ExtractAnswer(result.answer);
      var translated := LocalizedAnswer(answer, selectedLanguage, translate);
      if translated.None? {
        return;
      }
      messages := messages + [Message(Assistant, translated.value)];
    }
  }
}
