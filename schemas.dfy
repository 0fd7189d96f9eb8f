/**
 * The request and message shapes shared by the HTTP API and the two clients
 * (backend/app/models/schemas.py and frontend/src/types/index.ts).
 */
module Schemas {

  datatype Role = User | Assistant

  datatype Message = Message(role: Role, content: string)

  /** A chat request; the language defaults to "English" and the history to empty. */
  datatype ChatRequest = ChatRequest(prompt: string, language: string := "English", history: seq<Message> := [])
}

/**
 * What the external services can answer. Each provider is a parameter of the
 * model and may succeed or fail; nothing about how they compute is assumed.
 */
module Providers {
  import opened Options

  /** The retriever's answer: the page contents of the passages, or an exception. */
  datatype Retrieval = Retrieved(passages: seq<string>) | RetrievalFailed(reason: string)

  /**
   * A streamed generation: the chunk texts delivered, in order, then either
   * the end of the stream (failure == None) or an exception with its message.
   */
  datatype Generation = Generation(chunks: seq<string>, failure: Option<string>)

  /** The translator's answer: the translated text, or an exception. */
  datatype Translation = Translated(text: string) | TranslationFailed(reason: string)
}
