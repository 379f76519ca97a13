# A verified model of the RAG chat back end's sequential core

This project models, in Dafny, the parts of the retrieval-augmented chat API that are
plain sequential logic underneath its HTTP and language-model plumbing:

- **Message decoding** (`MessageService`): the checkpoint records of one conversation
  thread are filtered (records whose `metadata.writes` is missing or `None` are dropped)
  and each remaining record is decoded into a `Message`. A `__start__` write is a user
  turn (`content`/`role` of its first message), a `query_or_respond` write an AI turn
  (`kwargs.content`/`kwargs.type`), `__start__` wins when both are present, and unset or
  falsy values fall back to `"No content available"` and `"unknown"`. Python's dynamic
  behaviour is kept: `.get` on a non-dict raises `AttributeError`, and a truthy non-string
  content fails pydantic's validation. Decoding is a function of the records, so decoding
  the same records twice gives the same messages by construction.
- **Checkpoint store** (`MessageRepository`): the `checkpoints`, `checkpoint_writes` and
  `checkpoint_blobs` tables as sequences of thread-tagged rows; reading a thread, and
  purging it from all three tables with three DELETE statements in a fixed order followed
  by one commit. Because the pool runs in autocommit mode, a connection failure part-way
  leaves the earlier deletes in place; `DeleteAllMessages` takes the failing statement
  as a parameter and states exactly that.
- **Chat history and answers** (`ChatService`): `_build_history` turns n question/answer
  entries into 2n alternating human/AI messages; `ask_question` calls the retrieval chain
  (an opaque function) with the question and that history, echoes the question, and turns
  every exception, including a missing history key, into an HTTP 500.
- **Ingestion** (`VectorStore`, `DocumentProcessor`): the vector collection as a sequence
  of records. Records are built by zipping chunks with embeddings; ingesting a source
  deletes every record with its `source_key` and then inserts the new ones. The text
  splitter, the embedding model, SHA-256 and the PDF and web loaders are uninterpreted
  functions; the clock that stamps `created_at` is a parameter read once per record.
- **Validators** (`RequestModels`, `AuthController`): the non-blank checks on questions,
  texts and titles (Python's `str.strip()` with its full whitespace set), the
  case-sensitive `http://`/`https://` check on URL lists, and the admin login: the key
  is the last piece of the Authorization header split on single spaces, it must equal
  `ADMIN_API_KEY` (an unset variable matches nothing), a wrong key is a 401 that passes
  through the handler unchanged, and any other exception is a 500.

Shared modules: `Wrappers` (Option, Result, HTTP errors), `PyValues` (JSON-shaped
Python values, truthiness, `dict.get`) and `PyStrings` (`strip`, `split(' ')`, `join`).

The code decodes only `__start__` and `query_or_respond` writes and attaches no sources
to messages; the thread purge is not one all-or-nothing transaction (the pool runs in
autocommit mode); and rows come back in an order the database does not fix (the SELECT has
no ORDER BY); the model uses table order.

## Model

| member | source | states |
|---|---|---|
| `MessageService.ExtractTurn` | src/services/message_service.py:33-46 | a non-dict `writes`, or one with neither known key, leaves content and type unset |
| `MessageService.ParseRow` | src/services/message_service.py:23-54 | a non-dict metadata raises AttributeError; a decoded message copies id and thread id from the record and step from `metadata.step`, and its content and type are never empty |
| `MessageService.GetUserMessages` | src/services/message_service.py:8-15 | a non-dict metadata fails the filter with AttributeError before any record is decoded; otherwise it succeeds iff every kept record decodes, and message i is the decoding of kept record i |
| `MessageService.KeepRows` | src/services/message_service.py:13 | the filter succeeds iff every metadata is a dict; it keeps exactly the records whose `writes` is present and not None, and no others |
| `MessageService.ParseRows` | src/services/message_service.py:14 | succeeds iff every record decodes; message i is the decoding of record i, and the count is preserved |
| `MessageService.KeepRowsDistributes` | src/services/message_service.py:13 | the filter distributes over concatenation, so kept records stay in their original order |
| `MessageService.KeepOne` | src/services/message_service.py:13 | a single record is kept iff its `writes` is present and not None |
| `MessageService.OneMessagePerKeptRow` | src/services/message_service.py:12-15 | every kept record yields exactly one message, in record order, with the record's id and thread id |
| `MessageService.NoWritesNoMessages` | src/services/message_service.py:13-15 | records that all lack `writes` (or have it None) give an empty list |
| `MessageService.StartTakesPrecedence` | src/services/message_service.py:34-40 | when `__start__` is present, every other key of `writes` (including `query_or_respond`) is ignored |
| `MessageService.StartTurn` | src/services/message_service.py:34-39 | a `__start__` write takes content and type from `content` and `role` of its first message |
| `MessageService.AnswerTurn` | src/services/message_service.py:40-46 | a `query_or_respond` write takes content and type from `kwargs.content` and `kwargs.type` of its first message |
| `MessageService.NoMessagesLeavesUnset` | src/services/message_service.py:35-37 | an empty or non-list `messages` leaves content and type unset |
| `MessageService.Fallbacks` | src/services/message_service.py:48-54 | unset or falsy content becomes "No content available", unset or falsy type "unknown"; truthy strings are kept |
| `MessageService.NonStringContentRejected` | src/services/message_service.py:48-54 | truthy non-string content is a pydantic validation error |
| `MessageService.PurgedThreadHasNoMessages` | src/services/message_service.py:8-21 | after the thread's checkpoints are purged, reading its messages gives an empty list |
| `MessageRepository.Select` | src/repositories/message_repository.py:14-18 | returns only rows of the thread, and every row of the thread |
| `MessageRepository.Purge` | src/repositories/message_repository.py:31-43 | keeps exactly the rows of other threads |
| `MessageRepository.ToRecords` | src/repositories/message_repository.py:25 | each tuple maps to `{id: row[0], thread_id: row[1], metadata: row[2]}`, count and order preserved |
| `MessageRepository.SelectAfterPurge` | src/repositories/message_repository.py:31-43 | after a purge the thread reads empty and every other thread reads exactly as before |
| `MessageRepository.PurgeIdempotent` | src/repositories/message_repository.py:27-50 | deleting twice has the same effect as deleting once |
| `MessageRepository.PurgeKeepsOtherThreads` | src/repositories/message_repository.py:31-43 | rows of any other thread keep their order and multiplicity |
| `MessageRepository.CompletePurge` | src/repositories/message_repository.py:31-49 | the three statements purge `checkpoints`, `checkpoint_writes` and `checkpoint_blobs` |
| `MessageRepository.CompletePurgeEmptiesThread` | src/repositories/message_repository.py:27-50 | after the complete purge the thread reads empty in all three tables and a second purge changes nothing |
| `MessageRepository.CheckpointDb.GetMessagesByUser` | src/repositories/message_repository.py:9-25 | returns the mapped rows of the thread only, and one record for every row of the thread |
| `MessageRepository.CheckpointDb.ExecuteDelete` | src/repositories/message_repository.py:48-49 | one DELETE purges one table and records the statement |
| `MessageRepository.CheckpointDb.DeleteAllMessages` | src/repositories/message_repository.py:27-50 | deletes from checkpoints, writes, blobs in that order then commits; a failure at statement i leaves exactly the first i deletes applied and no commit |
| `ChatService.MissingKey` | src/services/chat_service.py:89-91 | no key is missing iff every entry has "question" and "answer" |
| `ChatService.InterleaveAt` | src/services/chat_service.py:87-92 | the history has 2n messages; message 2i is entry i's question from the human, 2i+1 its answer from the AI |
| `ChatService.InterleaveAppend` | src/services/chat_service.py:89-92 | entry order is preserved: the history of a concatenation is the concatenation of histories |
| `ChatService.MissingKeyAt` | src/services/chat_service.py:89-91 | the first incomplete entry decides the KeyError: "question" if it lacks it, else "answer" |
| `ChatService.BuildHistory` | src/services/chat_service.py:87-92 | the loop builds the interleaved history, or raises KeyError for the first missing key |
| `ChatService.AskQuestion` | src/services/chat_service.py:71-85 | the chain gets the question and the built history; success echoes the question with the chain's answer and context; any exception is a 500 "Error processing question: " + its text |
| `VectorStore.Zip` | src/services/vector_store.py:48 | Python's zip: min of the two lengths, pair i is (xs[i], ys[i]) |
| `VectorStore.WithoutSource` | src/services/vector_store.py:27 | `delete_many` keeps exactly the records of other sources |
| `VectorStore.WithSource` | src/services/vector_store.py:27 | the records matching a `source_key`, and all of them |
| `VectorStore.WithSourceAfterDelete` | src/services/vector_store.py:23-27 | after deleting a key it has no records, and every other key keeps its records |
| `VectorStore.Collection.DeleteMany` | src/services/vector_store.py:27 | the collection loses exactly the records of the key |
| `VectorStore.Collection.InsertMany` | src/services/vector_store.py:50 | the documents are added after the existing ones |
| `VectorStore.StampedRecords` | src/services/vector_store.py:39-49 | one record per (chunk, embedding) pair; record i has chunk i, embedding i, the given key, label and type, and clock reading i |
| `VectorStore.VectorStore.DeleteEmbeddings` | src/services/vector_store.py:23-27 | removes exactly the records of the key; other keys keep theirs |
| `VectorStore.VectorStore.InsertEmbeddings` | src/services/vector_store.py:35-50 | appends the stamped records |
| `DocumentProcessor.Documents` | src/services/document_processor.py:106-118 | min(len chunks, len embeddings) records; record i holds chunk i and embedding i, all with the same key and label |
| `DocumentProcessor.ReplaceLeavesOnlyNew` | src/services/document_processor.py:79-86 | after re-ingesting a source, its only records are the new ones |
| `DocumentProcessor.ReplaceKeepsOthers` | src/services/document_processor.py:100-104 | records of any other source are untouched by re-ingestion |
| `DocumentProcessor.ReplaceSupersedes` | src/services/document_processor.py:79-86 | ingesting a source twice equals ingesting it once with the second records |
| `DocumentProcessor.SameTitleReplaces` | src/services/document_processor.py:44-52 | the key comes from the title alone, so a second text under the same title replaces the first, whatever the texts |
| `DocumentProcessor.IngestUrlsKeepsUnrelated` | src/services/document_processor.py:69-77 | processing URLs leaves every key that no URL hashes to untouched |
| `DocumentProcessor.IngestUrlsLatestWins` | src/services/document_processor.py:69-77 | a URL whose key no later URL shares ends with exactly the records of its own page text, labelled by the URL |
| `DocumentProcessor.IngestUrlsSplit` | src/services/document_processor.py:73-77 | URLs are processed in list order: a list is its prefix, then the rest |
| `DocumentProcessor.DocumentProcessor.DeleteExistingEmbeddings` | src/services/document_processor.py:100-104 | removes exactly the records of the key |
| `DocumentProcessor.DocumentProcessor.InsertEmbeddings` | src/services/document_processor.py:106-119 | appends the zipped documents |
| `DocumentProcessor.DocumentProcessor.ProcessTextWithSourceKey` | src/services/document_processor.py:79-86 | delete then insert; afterwards the key holds exactly the text's records and other keys are unchanged |
| `DocumentProcessor.DocumentProcessor.ProcessText` | src/services/document_processor.py:44-52 | keyed by the hash of the title, labelled by the title |
| `DocumentProcessor.DocumentProcessor.ProcessPdf` | src/services/document_processor.py:54-67 | page contents joined by single spaces, keyed and labelled by the title; a None title raises before anything changes |
| `DocumentProcessor.DocumentProcessor.ProcessUrls` | src/services/document_processor.py:69-77 | each URL in order, keyed by its hash and labelled by itself |
| `RequestModels.ValidateQuestion` | src/models/request_models.py:10-15 | rejected iff empty or all whitespace; an accepted question is returned unchanged, not stripped |
| `RequestModels.ValidateText` | src/models/request_models.py:22-27 | the same non-blank check with the text message |
| `RequestModels.FieldErrors` | src/models/request_models.py:22-27 | a field contributes one error iff it is blank |
| `RequestModels.NewTextRequest` | src/models/request_models.py:18-27 | accepted iff text and title are both non-blank; each blank field is reported on its own |
| `RequestModels.ValidateUrls` | src/models/request_models.py:43-49 | accepted iff every URL starts with "http://" or "https://" (so the empty list is accepted); an accepted list is returned unchanged |
| `RequestModels.SchemeExamples` | src/models/request_models.py:47 | "HTTP://x", "ftp://x" and "http:/x" are rejected; the check is case-sensitive |
| `PyStrings.StripLeadingFacts` | src/models/request_models.py:13 | `lstrip` empties exactly the blank strings |
| `PyStrings.StripTrailingFacts` | src/models/request_models.py:13 | `rstrip` empties exactly the blank strings |
| `PyStrings.StripEmptyIffBlank` | src/models/request_models.py:13 | `not value.strip()` holds iff every character is whitespace |
| `PyStrings.SplitOnSpace` | src/controllers/auth_controller.py:18 | `split(' ')` yields at least one piece |
| `PyStrings.JoinSplit` | src/controllers/auth_controller.py:18 | joining the pieces of `split(' ')` with a space gives the string back |
| `PyStrings.SplitJoin` | src/controllers/auth_controller.py:18 | splitting space-free pieces joined by a space gives the pieces back |
| `PyStrings.SplitPiecesHaveNoSpace` | src/controllers/auth_controller.py:18 | no piece of `split(' ')` contains a space |
| `PyStrings.LastPieceIsSuffixAfterLastSpace` | src/controllers/auth_controller.py:18 | the last piece is the space-free suffix after the last space, or the whole string |
| `AuthController.VerifyApiKey` | src/services/auth_service.py:7-8 | an unset admin key matches no key; a set one matches exactly itself |
| `AuthController.LoginAttempt` | src/controllers/auth_controller.py:17-23 | a key that fails verification raises 401 "Unauthorized: Invalid API key" before the generator is used; an accepted key returns the generated token and expiry or raises the generator's exception |
| `AuthController.Handle` | src/controllers/auth_controller.py:24-29 | an HTTPException is re-raised unchanged; any other exception becomes a 500 whose detail is "Internal Server Error: " followed by the exception's text |
| `AuthController.AdminLogin` | src/controllers/auth_controller.py:12-29 | success iff the key equals ADMIN_API_KEY and the token is generated; success returns token and expiry; a wrong key is 401 "Unauthorized: Invalid API key" |
| `AuthController.RejectionIgnoresGenerator` | src/controllers/auth_controller.py:19-20 | a rejected key never depends on the token generator |
| `AuthController.UnsetKeyRefusesAll` | src/services/auth_service.py:7-8 | with ADMIN_API_KEY unset every login is a 401 |
| `AuthController.BearerHeader` | src/controllers/auth_controller.py:18 | "Bearer k" yields k for any space-free k |
| `AuthController.HeaderWithoutSpace` | src/controllers/auth_controller.py:18 | a header without a space is the key as a whole |
| `AuthController.TrailingSpace` | src/controllers/auth_controller.py:18 | a header ending in a space yields the empty key |

## Left out

- The orchestration graph (decide, retrieve, answer), source attachment and the "no relevant information" policy: none of them is in the modelled code, and the chat controller imports an `ask_question` function that the chat service defines only as a method.
- Streaming of answers (`stream_graph_response`): asynchronous generator plumbing.
- Language-model and embedding calls, chain construction and everything in `chat_service_2.py`: foreign library calls; the chain is an opaque function parameter.
- The database connection pool and `ping_db`; async scheduling and concurrent requests: I/O and shared resources.
- Vector search, `ping` and collection creation in `vector_store.py`: remote calls on floats through an unseen library.
- JWT generation and verification: a clock read and PyJWT; `AdminLogin` receives the generator's outcome (token and expiry, or the exception text).
- The middleware (its user id is hard-coded), `URLRequest.validate_url` (it depends on pydantic's `HttpUrl`), configuration loading, prompt texts, the other controllers and `info_service.py`.
- The PDF temporary file, `PyPDFLoader`, `WebBaseLoader`, the text splitter, the embedder and SHA-256 are uninterpreted functions; `generate_source_key` is therefore deterministic by construction.
- Floating point: JSON numbers are integers only, and embeddings and token expiry are passed through without arithmetic.
- MessageService.ParseRow: accepts only an integer `step`; pydantic's lax coercions (booleans, numeric strings, integral floats to `int`) are not modelled.
- DocumentProcessor.DocumentProcessor.GenerateSourceKey: a direct call of the uninterpreted SHA-256 hex digest, with no contract of its own; it is deterministic because it is a function, and how records are keyed by it is stated by the contracts of `ProcessText`, `ProcessPdf` and `ProcessUrls`.
- MessageRepository.CheckpointDb.GetMessagesByUser: the SELECT has no ORDER BY, so the database guarantees no order; the model returns rows in table order.
- DocumentProcessor.DocumentProcessor.ProcessTextWithSourceKey: the splitter, embedder and loaders are total functions, so an exception raised by them after the delete (which would leave the source's old records deleted and no new ones) is not modelled.
- ChatService.BuildHistory: history entries map keys to strings; a non-string question or answer, which the message classes would reject, is not modelled, nor a chain result missing `answer` or `context`.
- The order of records inside the vector collection is not meaningful to the store; the model appends inserted records at the end.
- Logging, `print` and `traceback.print_exc()` calls.
