# SAHAB legal assistant: answer-stream, localisation and session policies in Dafny

SAHAB answers legal questions with a retrieval-augmented pipeline. A FAISS
index over a statute corpus gives context passages. A Gemini prompt is
assembled from them, the model's answer is streamed back, and it is
optionally translated. This project models the deterministic policies between
those library calls and proves what they promise:

- **Rag** (`backend/app/services/rag_service.py`). Start-up either loads an
  existing index, or builds and saves one from the corpus, or leaves the
  retriever unset. This is the class `RagService` with its field updates,
  proved against the function `Initialize`. The answer stream
  (`ResponseStream`) is a pure function of whether a retriever is set, what
  retrieval returned and what the model streamed.
- **ChatRouter** (`backend/app/routers/chat.py`). English, in any letter case,
  passes the stream through. Any other language drains it, translates it once
  (falling back to the original text), and re-chunks it on `' '` into
  word-plus-space fragments.
- **Client** (`frontend/src/components/ChatInterface.tsx`). The class
  `ChatInterface` holds the React state. It covers the send gate with its
  two-message usage limit, the request sent, the chunk reducer that grows one
  assistant message, the error message and ending the chat.
- **StreamlitSession** (`app.py`, `new.py`). It models `extract_answer`, the
  last-ten history window, `reset_conversation` and the per-turn appends. The
  two pages define `extract_answer`, `reset_conversation` and
  `get_trimmed_chat_history` identically, so each is modelled once. `Turn` is
  the app.py turn and `TranslatedTurn` is the new.py turn with its language
  switch.
- **Text**, **Schemas**, **Providers**, **Options**. These hold the Python and
  JavaScript string operations the code relies on (`"".join`, `sep.join`,
  `split(' ')`, `strip()`, `trim()`, `find`, `lower()`), the request and
  message shapes, and the outcomes of the external services.

Every external service is a parameter, and each can fail. Retrieval gives
passages or an exception. Generation gives chunks, then possibly an exception.
Translation gives text or an exception. The conversational chain gives an
answer with its updated memory, or an exception. Start-up gets the
file-system and library outcomes as an `InitEnvironment`.

## Model

| member | source | states |
|---|---|---|
| `Rag.Initialize` | backend/app/services/rag_service.py:39-74 | An existing index is only loaded: the corpus is never read and nothing is saved. Build-and-save happens exactly when the index is absent and the corpus was read and built. With no index and no corpus file nothing is set. The store is set exactly when loading, or reading and building, succeeded, and a built store holds the corpus that was read. The retriever is set exactly when every step before line 71 succeeded, and it wraps the store with k = 5. So a failed save leaves the store set and the retriever unset. |
| `Rag.RagService.InitializeVectorStore` | backend/app/services/rag_service.py:39-74 | The step-by-step field updates give the store, the retriever and the disk steps that `Initialize` describes. A failed save leaves the store set but the retriever unset. |
| `Rag.RagService.constructor` | backend/app/services/rag_service.py:33-37 | Both fields start unset and start-up runs once. The fields end as `Initialize` says. The model name is gemini-2.5-pro. |
| `Rag.ContextText` | backend/app/services/rag_service.py:82-87 | A retrieval failure gives the empty context. No passages gives "". A single passage is the context itself. |
| `Rag.ContextKeepsPassagesInOrder` | backend/app/services/rag_service.py:83-84 | The context is the passages joined by "\n" in retrieval order. Splitting it on newlines gives the passages back when none contains a newline. |
| `Rag.FullPrompt` | backend/app/services/rag_service.py:89-106 | The prompt is the template's fixed instructions, then the context verbatim, then the QUESTION label, then the question verbatim, then the ANSWER cue, each at its own offset. So CONTEXT comes before QUESTION. `SahabPrompt` holds the f-string's fixed text. |
| `Rag.Forward` | backend/app/services/rag_service.py:108-113 | The chunk texts are forwarded unchanged and in order. A model exception adds exactly one fragment, "Error generating response: " plus the message, and nothing follows it. |
| `Rag.ResponseStream` | backend/app/services/rag_service.py:76-113 | With no retriever the stream is exactly the one initializing message. Otherwise it is the forwarded generation for the prompt built from the retrieved context and the question. |
| `Rag.RetrievalFailureDegradesToEmptyContext` | backend/app/services/rag_service.py:85-87 | A retrieval exception answers exactly as an empty retrieval does. Generation still runs, on an empty context. |
| `Rag.StreamConcatenation` | backend/app/services/rag_service.py:108-113 | The concatenated stream is the model's full answer. When the model raised part-way, it is the partial answer followed by the error text. |
| `Rag.NoDataMeansInitializing` | backend/app/services/rag_service.py:55-57 | Without an index and without a corpus file, every question is answered by the initializing message alone. |
| `ChatRouter.TranslatedOrOriginal` | backend/app/routers/chat.py:25-30 | The translator gets the lower-cased language. Its output is used when it succeeds. When it raises, the untranslated text is used. |
| `ChatRouter.FakeStream` | backend/app/routers/chat.py:33-37 | There is one fragment per `' '`-separated piece, each being the piece plus one space. There is one more fragment than there are spaces. The fragments concatenate to the text plus " ". |
| `ChatRouter.FakeStreamRoundTrip` | backend/app/routers/chat.py:35-37 | Dropping each fragment's trailing space and joining with `' '` gives back the text exactly. |
| `ChatRouter.FakeStreamPieces` | backend/app/routers/chat.py:35-37 | Without their trailing space, the fragments are exactly the pieces of `text.split(' ')`. |
| `ChatRouter.ChatEndpoint` | backend/app/routers/chat.py:10-43 | If the language lower-cases to "english", the response is the service stream unchanged. Otherwise the in-order concatenation of all service fragments is translated once, or kept on failure, and re-chunked. The result has at least one fragment and concatenates to that text plus " ". |
| `ChatRouter.TranslationFailureKeepsAnswer` | backend/app/routers/chat.py:22-37 | When the translator raises, the re-emitted words reassemble to the untranslated answer. |
| `ChatRouter.LanguageMatchIsCaseInsensitive` | backend/app/routers/chat.py:13 | Two requests whose languages lower-case alike get the same response. |
| `ChatRouter.IsEnglish` | backend/app/routers/chat.py:13 | A language that lower-cases to "english" has seven characters. "English", "english" and "ENGLISH" all take the English path. |
| `Text.Split` | backend/app/routers/chat.py:35 | `split(' ')` gives one more piece than there are separators, and no piece contains the separator. |
| `Text.JoinSplit` | backend/app/routers/chat.py:35-37 | Joining the pieces of a split with the separator gives back the original string. |
| `Text.SplitJoin` | backend/app/services/rag_service.py:84 | Splitting a join of separator-free pieces gives back the pieces. |
| `Text.Concat` | backend/app/routers/chat.py:23 | `"".join` of no fragments is "", and of one fragment is that fragment. |
| `Text.ConcatAppend` | backend/app/routers/chat.py:23 | Appending one fragment extends the concatenation by exactly that fragment. |
| `Text.ConcatSplit` | backend/app/routers/chat.py:23 | The concatenation of two batches of fragments is the concatenation of the first batch followed by that of the second. |
| `Text.Join` | backend/app/services/rag_service.py:84 | `sep.join` of no pieces is "", and of one piece is that piece. Otherwise the result starts with the first piece. |
| `Text.PyStrip` | app.py:112 | `str.strip()` gives the infix after the leading Python whitespace, with only Python whitespace after it, and it neither starts nor ends with Python whitespace. |
| `Text.JsTrim` | frontend/src/components/ChatInterface.tsx:34 | `trim()` gives the infix after the leading JavaScript whitespace, with only JavaScript whitespace after it, and it neither starts nor ends with JavaScript whitespace. |
| `Text.Lower` | backend/app/routers/chat.py:13 | The result has the input's length, and each character is lower-cased by position. |
| `Text.Find` | new.py:149 | The result is the first occurrence of the pattern: it occurs there and nowhere before. None means it occurs nowhere. |
| `Text.Strip` | new.py:152 | The result is the infix of the input that starts after the leading run of stripped characters. Only stripped characters follow it. It neither starts nor ends with a stripped character, and an input with no such character at either end is unchanged. |
| `Text.StripEmptyIffAllSatisfy` | frontend/src/components/ChatInterface.tsx:34 | Trimming leaves "" exactly when every character is whitespace. |
| `Client.BlankIffTrimmedEmpty` | frontend/src/components/ChatInterface.tsx:34 | The send gate's blank test is exactly `input.trim() == ""`. |
| `Client.IsBlank` | frontend/src/components/ChatInterface.tsx:34 | The send gate's `!input.trim()`: every character is JavaScript whitespace. `BlankIffTrimmedEmpty` proves it matches `trim() == ""`. |
| `Client.ApplyChunk` | frontend/src/components/ChatInterface.tsx:56-69 | After an assistant message, the length is kept, earlier messages are untouched and the last content becomes old content + chunk. Otherwise exactly one assistant message holding the chunk is appended. |
| `Client.ApplyChunks` | frontend/src/components/ChatInterface.tsx:55-70 | The updaters applied in delivery order add at most one message. After at least one chunk the list ends with an assistant message. Every message before the last of the original list is untouched. |
| `Client.ChunksExtendAssistant` | frontend/src/components/ChatInterface.tsx:56-69 | Any number of chunks after an assistant message all land in it, in order, and earlier messages stay untouched. |
| `Client.ChunksFormOneAssistantMessage` | frontend/src/components/ChatInterface.tsx:56-69 | After a user message, chunks c1..cn (n >= 1) add exactly one assistant message, with content c1+...+cn. |
| `Client.ChunksKeepUserCount` | frontend/src/components/ChatInterface.tsx:56-69 | The reducer never adds or removes a user message. |
| `Client.ChatInterface.constructor` | frontend/src/components/ChatInterface.tsx:13-18 | The initial state is: no messages, empty input, not loading, English, count 0, no modal. |
| `Client.ChatInterface.SetInput` | frontend/src/components/ChatInterface.tsx:217 | Typing sets the input and nothing else. |
| `Client.ChatInterface.SelectLanguage` | frontend/src/components/ChatInterface.tsx:117 | The selector sets the language and nothing else. |
| `Client.ChatInterface.HandleSend` | frontend/src/components/ChatInterface.tsx:32-48 | Blank input, or a send while loading, changes nothing. At count >= 2 only the limit modal is raised. An accepted send appends one user message with the untrimmed input, clears the input, sets loading and adds 1 to the count. It sends the list before that message as history. The count never exceeds 2. |
| `Client.ChatInterface.ReceiveStream` | frontend/src/components/ChatInterface.tsx:50-78 | The messages become the chunk reducer applied to every delivered chunk in order. A failure then appends one separate assistant error message. Loading is false after every outcome. |
| `Client.ChatInterface.HandleEndChat` | frontend/src/components/ChatInterface.tsx:81-84 | Ending the chat empties the messages. The handler itself leaves the usage count and every other field as they were, within the one mounted chat screen. |
| `StreamlitSession.ExtractAnswer` | new.py:147-154 | The answer is never longer than the response. Without "ANSWER:" it is the response unchanged. |
| `StreamlitSession.ExtractAnswerAfterFirstMarker` | app.py:107-113 | When "ANSWER:" first occurs at i, the answer is the stripped text after that occurrence, with no leading or trailing whitespace. |
| `StreamlitSession.TrimmedHistory` | new.py:165-167 | The window holds the last min(10, n) messages in their original order. |
| `StreamlitSession.TrimmedHistoryEndsWithLatest` | app.py:135-136 | The window taken right after appending the user message ends with that message. |
| `StreamlitSession.LocalizedAnswer` | new.py:189-193 | Exactly "English" keeps the answer. Any other choice uses the translator's output for the lower-cased language. An uncaught translator exception gives no answer. |
| `StreamlitSession.Session.constructor` | new.py:43-48 | The session starts with no messages and an empty memory. |
| `StreamlitSession.Session.ResetConversation` | new.py:161-163 | Afterwards the message list is empty and the memory is cleared. |
| `StreamlitSession.Session.Turn` | app.py:129-149 | An empty prompt changes nothing. Otherwise one user message is appended, and the chain gets the trimmed history that includes it. On success one assistant message with the extracted answer follows, with no reminder prefix and no translation. A chain exception leaves only the user message. |
| `StreamlitSession.Session.TranslatedTurn` | new.py:174-200 | This is the app.py turn with the localized answer stored instead of the extracted one. A translator exception leaves only the user message, with the chain's memory kept. |

## Left out

- Embedding (`CustomHuggingFaceEmbeddings`), FAISS build, load and save, similarity ranking, `RecursiveCharacterTextSplitter` chunking (size 1000, overlap 200), `ConversationalRetrievalChain` and `ConversationBufferWindowMemory(k=2)`. These live in libraries, so they are parameters or opaque values. `BuiltIndex(corpus)` records only which corpus the index was built from.
- The code checks no index dimension and does no atomic save, and the model does not add either.
- Gemini, Together, Ollama and GoogleTranslator are network services. They appear only as success or failure outcomes.
- Generators, async streaming and StreamingResponse transport are not modelled: streams are finite sequences. The English path's "no buffering" and fragment latency cannot be stated on sequences. `frontend/src/api/api.ts` (fetch, reader, TextDecoder) is represented only by the chunk sequence that `ReceiveStream` receives.
- The HTTP 500 mapping in `chat_endpoint` (backend/app/routers/chat.py:45-46) and the FastAPI/CORS wiring and configuration are not modelled.
- `print` logging, Streamlit page, sidebar, footer and spinner code, the reminder banner shown above the answer, the React JSX rendering, scrolling, the disabled states of the input box and button, and the landing page are left out as presentation.
- Text.Lower: lower-cases ASCII letters only. Python's `str.lower()` also lower-cases non-ASCII letters. The language names offered by both UIs are ASCII.
- Python and JavaScript strings are sequences of code points here. Python `str` is code points, but JavaScript strings are UTF-16 code units; this matters for `trim()` only through the whitespace set, which is written out exactly.
- Rag.RagService.InitializeVectorStore: requires both fields unset. Its only caller, the constructor, sets them to None just before calling it.
- Start-up's `as_retriever` is assumed not to raise.
- Client.ChatInterface.HandleEndChat: the model does not capture that End Session also calls `onBackToLanding`. That callback switches `App.tsx` to the landing view (frontend/src/App.tsx:13), which unmounts the chat screen. A later launch mounts a fresh screen, a new `ChatInterface` here, whose usage count starts again at 0. The two-send limit therefore holds per mounted screen only, not per user.
- StreamlitSession.Session.Turn: on a chain exception the memory is taken as unchanged. What the library does to its memory before raising is not shown.
- The backend ignores `ChatRequest.history`, and so does the model.
