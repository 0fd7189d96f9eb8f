/**
 * The retrieval-augmented answer service (backend/app/services/rag_service.py):
 * start-up decides whether a similarity index is loaded, built or left unset,
 * and each question is answered by a stream of text fragments.
 *
 * The embedding model, the FAISS index, the text splitter and the Gemini model
 * are not modelled; their outcomes are parameters.
 */
module Rag {
  import opened Options
  import opened Text
  import opened Providers

  /** The only fragment emitted while no retriever is available. */
  const InitializingMessage := "System is initializing, please try again in a moment."
  /** The prefix of the fragment that reports a generation failure. */
  const GenerationErrorPrefix := "Error generating response: "
  /** Passages are joined with a newline to form the context. */
  const ContextSeparator := "\n"
  /** The retriever asks the index for the five most similar passages. */
  const RetrieverK := 5
  const SearchType := "similarity"
  const ModelName := "gemini-2.5-pro"

  /** Fixed instruction text up to and including the "CONTEXT: " label. */
  const PromptPreamble :=
    "\n        You are SAHAB, an authoritative legal assistant . "
    + "\n        Your primary source of information is the provided legal context."
    + "\n        "
    + "\n        Guidelines:"
    + "\n        1. Respond professionally and confidently."
    + "\n        2. Cite specific section numbers from the CONTEXT when available."
    + "\n        3. Do not use emojis."
    + "\n        4. IF the answer is found in the CONTEXT, rely strictly on it."
    + "\n        5. IF the answer is NOT in the CONTEXT (e.g., questions about CrPC, Evidence Act, or general definitions not in IPC):"
    + "\n           - Provide a brief, general legal definition based on your general knowledge."
    + "\n           - Do NOT mention that the information is missing from your database."
    + "\n           - Suggest consulting the relevant act (e.g., CrPC for bail)."
    + "\n"
    + "\n        CONTEXT: "
  /** Text between the context and the question. */
  const QuestionLabel := "\n        QUESTION: "
  /** Text after the question. */
  const AnswerCue := "\n        ANSWER:\n        "

  /** Where the index came from: read from disk, or built from the corpus text. */
  datatype VectorStore = LoadedIndex | BuiltIndex(corpus: string)

  datatype Retriever = Retriever(store: VectorStore, searchType: string, k: nat)

  /** Effects of start-up on the file system, in the order they are attempted. */
  datatype DiskStep = LoadIndex | ReadCorpus | SaveIndex

  /**
   * What the environment answers at start-up: whether the embedding model
   * loads, whether the index directory and the corpus file exist, the corpus
   * text (None when opening or reading it raises), and whether loading,
   * building and saving the index succeed.
   */
  datatype InitEnvironment = InitEnvironment(
    embeddingsLoad: bool,
    indexExists: bool,
    loadSucceeds: bool,
    dataFileExists: bool,
    corpus: Option<string>,
    buildSucceeds: bool,
    saveSucceeds: bool)

  datatype InitResult = InitResult(store: Option<VectorStore>, retriever: Option<Retriever>, steps: seq<DiskStep>)

  /**
   * The outcome of start-up in a given environment. An exception at any step
   * is caught and leaves the fields as they were at that point.
   */
  function Initialize(env: InitEnvironment): (r: InitResult)
    // a retriever always wraps the store that was set, with k = 5
    ensures r.retriever.Some? ==> r.store.Some? && r.retriever.value == Retriever(r.store.value, SearchType, RetrieverK)
    // an existing index is loaded and never rebuilt or overwritten
    ensures env.indexExists ==> ReadCorpus !in r.steps && SaveIndex !in r.steps && (r.store.Some? ==> r.store.value == LoadedIndex)
    ensures env.embeddingsLoad && env.indexExists ==> r.steps == [LoadIndex]
    // build-and-save happens only when the index is absent and the corpus was read
    ensures SaveIndex in r.steps <==> env.embeddingsLoad && !env.indexExists && env.dataFileExists && env.corpus.Some? && env.buildSucceeds
    ensures (r.store.Some? && r.store.value.BuiltIndex?) ==> SaveIndex in r.steps
    // the store is set exactly when loading, or reading and building, succeeded
    ensures r.store.Some? <==>
              env.embeddingsLoad
              && (if env.indexExists then env.loadSucceeds
                  else env.dataFileExists && env.corpus.Some? && env.buildSucceeds)
    ensures r.store.Some? && r.store.value.BuiltIndex? ==> env.corpus == Some(r.store.value.corpus)
    // no index and no corpus file: nothing is set
    ensures !env.indexExists && !env.dataFileExists ==> r.store.None? && r.retriever.None?
    // the retriever is set exactly when every step up to it succeeded
    ensures r.retriever.Some? <==>
              env.embeddingsLoad
              && (if env.indexExists then env.loadSucceeds
                  else env.dataFileExists && env.corpus.Some? && env.buildSucceeds && env.saveSucceeds)
  {
    if !env.embeddingsLoad then InitResult(None, None, [])
    else if env.indexExists then
      if env.loadSucceeds then InitResult(Some(LoadedIndex), Some(Retriever(LoadedIndex, SearchType, RetrieverK)), [LoadIndex])
      else InitResult(None, None, [LoadIndex])
    else if !env.dataFileExists then InitResult(None, None, [])
    else if env.corpus.None? || !env.buildSucceeds then InitResult(None, None, [ReadCorpus])
    else
      var store := BuiltIndex(env.corpus.value);
      if env.saveSucceeds then InitResult(Some(store), Some(Retriever(store, SearchType, RetrieverK)), [ReadCorpus, SaveIndex])
      else InitResult(Some(store), None, [ReadCorpus, SaveIndex])
  }

  class RagService {
    var vectorStore: Option<VectorStore>
    var retriever: Option<Retriever>
    const modelName: string

    /** Both fields start unset; start-up then runs once. */
    constructor (env: InitEnvironment)
      ensures vectorStore == Initialize(env).store && retriever == Initialize(env).retriever
      ensures modelName == ModelName
    {
      vectorStore := None;
      retriever := None;
      modelName := ModelName;
      new;
      var _ := InitializeVectorStore(env);
    }

    /** Load the index if it exists, otherwise build and save it, then wrap it in a retriever. */
    method InitializeVectorStore(env: InitEnvironment) returns (steps: seq<DiskStep>)
      requires vectorStore.None? && retriever.None?
      modifies this
      ensures vectorStore == Initialize(env).store && retriever == Initialize(env).retriever
      ensures steps == Initialize(env).steps
    {
      steps := [];
      if !env.embeddingsLoad {
        return;
      }
      if env.indexExists {
        steps := steps + [LoadIndex];
        if !env.loadSucceeds {
          return;
        }
        vectorStore := Some(LoadedIndex);
      } else {
        if !env.dataFileExists {
          return;
        }
        steps := steps + [ReadCorpus];
        if env.corpus.None? || !env.buildSucceeds {
          return;
        }
        vectorStore := Some(BuiltIndex(env.corpus.value));
        steps := steps + [SaveIndex];
        if !env.saveSucceeds {
          return;
        }
      }
      retriever := Some(Retriever(vectorStore.value, SearchType, RetrieverK));
    }
  }

  /** The context handed to the model: the passages joined by newlines, or "" when retrieval failed. */
  function ContextText(retrieval: Retrieval): (context: string)
    ensures retrieval.RetrievalFailed? ==> context == ""
    ensures retrieval.Retrieved? && retrieval.passages == [] ==> context == ""
    ensures retrieval.Retrieved? && |retrieval.passages| == 1 ==> context == retrieval.passages[0]
  {
    match retrieval
    case Retrieved(passages) => Join(passages, ContextSeparator)
    case RetrievalFailed(_) => ""
  }

  /** The passages can be read back from the context, in retrieval order, when none contains a newline. */
  lemma ContextKeepsPassagesInOrder(passages: seq<string>)
    requires |passages| >= 1
    requires forall i :: 0 <= i < |passages| ==> '\n' !in passages[i]
    ensures Split(ContextText(Retrieved(passages)), '\n') == passages
  {
    SplitJoin(passages, '\n');
  }

  /** The fixed parts of the prompt, around the context and the question. */
  datatype PromptTemplate = PromptTemplate(preamble: string, questionLabel: string, answerCue: string)

  /** The template of get_response_stream's f-string. */
  const SahabPrompt := PromptTemplate(PromptPreamble, QuestionLabel, AnswerCue)

  /** The prompt sent to the model: fixed instructions, then the context, then the question, verbatim. */
  function FullPrompt(template: PromptTemplate, context: string, question: string): (p: string)
    ensures var pre := template.preamble;
            var mid := template.questionLabel;
            var cue := template.answerCue;
            |p| == |pre| + |context| + |mid| + |question| + |cue|
            && p[..|pre|] == pre
            && p[|pre|..|pre| + |context|] == context
            && p[|pre| + |context|..|pre| + |context| + |mid|] == mid
            && p[|pre| + |context| + |mid|..|p| - |cue|] == question
            && p[|p| - |cue|..] == cue
  {
    FiveSegments(template.preamble, context, template.questionLabel, question, template.answerCue);
    template.preamble + context + template.questionLabel + question + template.answerCue
  }

  /** Each of five concatenated strings sits at its own offset. */
  lemma FiveSegments(a: string, b: string, c: string, d: string, e: string)
    ensures var p := a + b + c + d + e;
            |p| == |a| + |b| + |c| + |d| + |e|
            && p[..|a|] == a
            && p[|a|..|a| + |b|] == b
            && p[|a| + |b|..|a| + |b| + |c|] == c
            && p[|a| + |b| + |c|..|p| - |e|] == d
            && p[|p| - |e|..] == e
  {
    var p := a + b + c + d + e;
    assert p == a + (b + (c + (d + e)));
    assert p[|a|..] == b + (c + (d + e));
    assert p[|a| + |b|..] == c + (d + e);
    assert p[|a| + |b| + |c|..] == d + e;
  }

  /**
   * Forwarding a generation: every chunk text in order, then one error
   * fragment if the model raised.
   */
  function Forward(g: Generation): (out: seq<string>)
    ensures |out| == |g.chunks| + (if g.failure.Some? then 1 else 0)
    ensures out[..|g.chunks|] == g.chunks
    ensures g.failure.Some? ==> out[|g.chunks|] == GenerationErrorPrefix + g.failure.value
  {
    match g.failure
    case None => g.chunks
    case Some(e) => g.chunks + [GenerationErrorPrefix + e]
  }

  /**
   * The fragments answered for one question (RagService.get_response_stream).
   * retriever is the service's field, retrieval what the retriever answers for
   * this question, and generate what the model streams for a given prompt.
   */
  function ResponseStream(retriever: Option<Retriever>, question: string, retrieval: Retrieval,
                          generate: string -> Generation): (out: seq<string>)
    ensures retriever.None? ==> out == [InitializingMessage]
    ensures retriever.Some? ==> out == Forward(generate(FullPrompt(SahabPrompt, ContextText(retrieval), question)))
  {
    if retriever.None? then [InitializingMessage]
    else Forward(generate(FullPrompt(SahabPrompt, ContextText(retrieval), question)))
  }

  /** A retrieval failure answers exactly as an empty retrieval: generation still runs, on an empty context. */
  lemma RetrievalFailureDegradesToEmptyContext(retriever: Option<Retriever>, question: string, reason: string,
                                               generate: string -> Generation)
    requires retriever.Some?
    ensures ResponseStream(retriever, question, RetrievalFailed(reason), generate)
            == ResponseStream(retriever, question, Retrieved([]), generate)
            == Forward(generate(FullPrompt(SahabPrompt, "", question)))
  {
  }

  /**
   * With a retriever, the concatenated stream is the model's answer, followed
   * by the error text when the model raised part-way.
   */
  lemma {:induction false} StreamConcatenation(retriever: Option<Retriever>, question: string, retrieval: Retrieval,
                                               generate: string -> Generation)
    requires retriever.Some?
    ensures var g := generate(FullPrompt(SahabPrompt, ContextText(retrieval), question));
            Concat(ResponseStream(retriever, question, retrieval, generate))
            == Concat(g.chunks) + (if g.failure.Some? then GenerationErrorPrefix + g.failure.value else "")
  {
    var g := generate(FullPrompt(SahabPrompt, ContextText(retrieval), question));
    if g.failure.Some? {
      ConcatAppend(g.chunks, GenerationErrorPrefix + g.failure.value);
    } else {
      assert Concat(g.chunks) + "" == Concat(g.chunks);
    }
  }

  /** With no index and no corpus file the service can only ever answer the initializing message. */
  lemma NoDataMeansInitializing(env: InitEnvironment, question: string, retrieval: Retrieval,
                                generate: string -> Generation)
    requires !env.indexExists && !env.dataFileExists
    ensures ResponseStream(Initialize(env).retriever, question, retrieval, generate) == [InitializingMessage]
  {
  }
}
