/**
 * The /chat endpoint (backend/app/routers/chat.py): English answers are the
 * service's stream itself; any other language drains the stream, translates
 * the whole text once and re-emits it word by word.
 */
module ChatRouter {
  import opened Text
  import opened Schemas
  import opened Providers

  /** The language test is made on the lower-cased name. */
  predicate IsEnglish(language: string)
    ensures IsEnglish(language) ==> |language| == 7
    ensures language == "English" || language == "english" || language == "ENGLISH" ==> IsEnglish(language)
  {
    Lower(language) == "english"
  }

  /**
   * The text to re-emit: the translator's output, or the untranslated text
   * when the translator raises. The translator is asked for the lower-cased
   * language name.
   */
  function TranslatedOrOriginal(language: string, fullText: string,
                                translate: (string, string) -> Translation): (text: string)
    ensures translate(Lower(language), fullText).TranslationFailed? ==> text == fullText
    ensures translate(Lower(language), fullText).Translated? ==> text == translate(Lower(language), fullText).text
  {
    match translate(Lower(language), fullText)
    case Translated(t) => t
    case TranslationFailed(_) => fullText
  }

  /** fake_stream: one fragment per ' '-separated piece, each followed by one space. */
  function FakeStream(text: string): (fragments: seq<string>)
    ensures |fragments| == Count(text, ' ') + 1
    ensures forall i :: 0 <= i < |fragments| ==> fragments[i] == Split(text, ' ')[i] + " "
    ensures Concat(fragments) == text + " "
  {
    var fragments := AppendToEach(Split(text, ' '), " ");
    ConcatAppendToEach(Split(text, ' '), " ");
    JoinSplit(text, ' ');
    fragments
  }

  /** Dropping each fragment's trailing space and joining with ' ' gives back the text. */
  lemma FakeStreamRoundTrip(text: string)
    ensures Join(DropSuffixFromEach(FakeStream(text), " "), " ") == text
  {
    DropAppendedSuffix(Split(text, ' '), " ");
    JoinSplit(text, ' ');
  }

  /** Re-chunking keeps the words: splitting the re-emitted text on ' ' gives one piece per fragment. */
  lemma FakeStreamPieces(text: string)
    ensures DropSuffixFromEach(FakeStream(text), " ") == Split(text, ' ')
  {
    DropAppendedSuffix(Split(text, ' '), " ");
  }

  /**
   * The response stream of chat_endpoint. service gives the answer fragments
   * for a prompt (RagService.get_response_stream); translate is the
   * translator, given the target language and the text.
   */
  function ChatEndpoint(request: ChatRequest, service: string -> seq<string>,
                        translate: (string, string) -> Translation): (out: seq<string>)
    // English in any letter case: the service stream, fragment for fragment
    ensures IsEnglish(request.language) ==> out == service(request.prompt)
    // any other language: the whole answer, translated once, re-chunked on ' '
    ensures !IsEnglish(request.language) ==>
              out == FakeStream(TranslatedOrOriginal(request.language, Concat(service(request.prompt)), translate))
              && |out| >= 1
              && Concat(out) == TranslatedOrOriginal(request.language, Concat(service(request.prompt)), translate) + " "
  {
    if IsEnglish(request.language) then service(request.prompt)
    else
      var fullText := Concat(service(request.prompt));
      FakeStream(TranslatedOrOriginal(request.language, fullText, translate))
  }

  /** When the translator raises, the words re-emitted are those of the untranslated answer. */
  lemma TranslationFailureKeepsAnswer(request: ChatRequest, service: string -> seq<string>,
                                      translate: (string, string) -> Translation)
    requires !IsEnglish(request.language)
    requires translate(Lower(request.language), Concat(service(request.prompt))).TranslationFailed?
    ensures Join(DropSuffixFromEach(ChatEndpoint(request, service, translate), " "), " ") == Concat(service(request.prompt))
  {
    FakeStreamRoundTrip(Concat(service(request.prompt)));
  }

  /** The endpoint looks at the language only through its lower-cased form. */
  lemma LanguageMatchIsCaseInsensitive(r1: ChatRequest, r2: ChatRequest, service: string -> seq<string>,
                                       translate: (string, string) -> Translation)
    requires r1.prompt == r2.prompt && Lower(r1.language) == Lower(r2.language)
    ensures ChatEndpoint(r1, service, translate) == ChatEndpoint(r2, service, translate)
  {
  }
}
