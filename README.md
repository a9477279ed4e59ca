# Customer-support voice bot: conversation, retrieval and configuration core

This project models three pieces of a Flask customer-support voice bot and proves properties about them in Dafny. The rest of the bot is glue around hosted services.

- **`GroqService`** (`app/services/groq_service.py`) keeps one shared conversation transcript.
  - `chat` looks up customer facts and builds a system prompt from them. It records the user turn and asks the completion service for a reply.
  - It then records the reply and keeps only the ten most recent entries.
  - Any exception turns into a fixed apology.
- **`RAGService`** (`app/services/rag_service.py`) owns at most one vector store and one question-answering chain over it.
  - The store is either reopened from its persist directory or built from the `.txt` and `.pdf` files of the documents directory.
  - Documents can be added to it, and it can be rebuilt from scratch.
  - `query` shapes the chain's answer and reports the de-duplicated names of its sources.
- **`Config`** (`app/config.py`) derives the settings from the environment. It includes a one-time rewrite of `postgres://` database URLs to `postgresql://`.

Files:

- `wrappers.dfy`: `Option` and `Result`.
- `text.dfy`: the Python string operations the services use: `startswith`, `endswith`, `find`, `replace(..., 1)`, `split("/")[-1]` and truthiness.
- `config.dfy`: module `Config`.
- `groq_service.dfy`: module `Groq`.
- `rag_service.dfy`: module `Rag`.

The state the source changes in place is modelled as classes.

- `Groq.GroqService` has a `seq` field, `conversationHistory`.
  - `Chat`, `Respond` and `ResetConversation` update that field.
  - `Chat` and `Respond` state the reply and the new transcript in terms of the pure specification `ChatStep`.
  - `ResetConversation` empties the transcript.
- `Rag.RagService` holds a nullable `VectorStore` field and an optional chain.
  - The chain refers to the same `VectorStore` object, so chunks added through `AddDocument` are seen by later queries.
- The loops of the source are methods with loop invariants:
  - the order summaries in `Groq.WriteCustomerBlock`;
  - the corpus walk in `Rag.CollectDocuments`;
  - the source loop in `Rag.CollectSources`.

What the outside world does is passed in as parameters:

- The completion call is a function from `Groq.Request` to `Groq.Reply`. A reply is either the choices' contents or `Failed` for an exception.
- The customer and order tables are sequences in query order.
- A `Rag.Host` value carries:
  - the directory listing, with `Missing`, `Entries(names)` or `Unreadable`;
  - the two loaders, giving `None` when they raise;
  - the text splitter;
  - the reopening of a persisted store;
  - `shutil.rmtree`.
- The retrieval chain is a function `ask` from the store's chunks and the question to an optional `ChainResult`.

## Behaviour worth knowing

- **A failed completion leaves the user turn in the transcript.** The code appends the user turn at `groq_service.py:65`, before the call at line 74, and the exception handler does not remove it. So after a failure the transcript is the old one plus the user entry, and no truncation has happened. `Groq.ChatStepOutcomes` states exactly this.
  - The ten-entry bound therefore holds only after a successful exchange.
  - Repeated failures keep growing the transcript past ten entries.
- **With no chain, `query` answers with text.** The code answers `"Knowledge base not available."`, with `used_rag` false (`rag_service.py:132-137`). A null answer appears only when the chain raises or its result has no `"result"` entry.
- **An order whose customer row is missing aborts the whole chat.** `Customer.query.get` can return `None`, and then `customer.name` raises (`groq_service.py:28-30`). `chat` catches it and returns the apology before anything is recorded. The model carries this as `Result.Raised`.
- **`RAGService` is reachable only by direct calls.** No route in `app/routes.py` constructs it, and `chat` is never given a `rag_context` (`app/routes.py:37-41`).

## Model

| member | source | states |
|---|---|---|
| Config.FixDatabaseUrl | app/config.py:12-14 | A URL starting with `postgres://` becomes `postgresql://` followed by the rest of the URL unchanged; an absent URL or any other URL is returned as it was |
| Config.FixDatabaseUrlIdempotent | app/config.py:13-14 | Rewriting an already rewritten URL changes nothing |
| Config.FromEnvironment | app/config.py:6-28 | Each setting is its variable when set and its default otherwise: `SECRET_KEY` `'dev-secret-key-change-in-production'`, `MONGODB_URI` `'mongodb://localhost:27017/'`, `MONGODB_DB_NAME` `'voicebot_analytics'`. The database URL is absent when unset and rewritten when it has the old scheme. Each API key is its variable's value when set and absent otherwise. Modification tracking is off, the model name is fixed, and `MAX_CONTENT_LENGTH` is 16777216 |
| Text.ReplaceFirst | app/config.py:14 | With no occurrence the string is unchanged; a string starting with the pattern gets the replacement in place of that prefix and keeps the rest |
| Text.LastSegment | app/services/rag_service.py:152 | The result has no `/`, is a suffix of the input, and is preceded by a `/` whenever it is shorter than the input |
| Groq.First | app/services/groq_service.py:16 | `.first()`: a found row is in the table and matches; `None` means no row matches |
| Groq.OrdersOf | app/services/groq_service.py:19 | An order is among the customer's orders exactly when it is in the table with that customer id |
| Groq.Appended | app/services/groq_service.py:13-33 | Accumulating lines onto a context keeps the context as a prefix and adds at least one character per line |
| Groq.AppendedConcat | app/services/groq_service.py:13-33 | Writing two runs of lines one after the other gives the same text as writing their concatenation |
| Groq.OrderSummaries | app/services/groq_service.py:22-23 | Exactly one summary line per order, line `i` describing order `i` |
| Groq.CustomerBlock | app/services/groq_service.py:18-23 | The block is a blank line and the customer line. The "Recent Orders:" header follows only when there are orders, then one "- Order #" line per order in query order; with no orders the header is absent |
| Groq.OrderBlock | app/services/groq_service.py:29-33 | The order block is six lines opening with a blank line |
| Groq.EmailLines | app/services/groq_service.py:15-23 | The e-mail argument contributes lines exactly when it is truthy and matches a customer |
| Groq.OrderNumberLines | app/services/groq_service.py:25-33 | The order-number argument raises exactly when it matches an order whose customer row is missing. Otherwise it contributes lines exactly when it is truthy and matches an order |
| Groq.CustomerContextEmptyIff | app/services/groq_service.py:13-35 | The context is the empty string exactly when neither the e-mail nor the order number matches a row |
| Groq.EmailBlockFirst | app/services/groq_service.py:15-33 | The e-mail block's text is a prefix of the context, so it precedes the order-number block |
| Groq.WriteCustomerBlock | app/services/groq_service.py:18-23 | The `+=` steps and the loop over orders append exactly the customer block's lines, each followed by a newline |
| Groq.WriteOrderBlock | app/services/groq_service.py:29-33 | The five `+=` steps append exactly the order block's lines, each followed by a newline |
| Groq.GroqService.GetCustomerContext | app/services/groq_service.py:11-35 | The accumulated text equals the lines of both blocks rendered in order, or the lookup raises as `OrderNumberLines` says |
| Groq.KnowledgeSection | app/services/groq_service.py:53-60 | The knowledge-base section is present exactly when `rag_context` is truthy, with the context text between its introduction and its citation advice |
| Groq.CustomerSection | app/services/groq_service.py:62-63 | The customer section is present exactly when the context is non-empty, opens with the "Customer Information" heading and ends with the context |
| Groq.SystemPromptLayout | app/services/groq_service.py:45-63 | The prompt starts with the role text, then comes the knowledge section when `rag_context` is truthy, then the customer section when the context is non-empty. It is the role text alone exactly when neither applies |
| Groq.ChatRequest | app/services/groq_service.py:70-79 | The request carries the model, temperature 0.7 and 500 tokens. Its messages are the system prompt followed by the entire transcript, including the new user turn |
| Groq.Window | app/services/groq_service.py:88-89 | The kept transcript has `min(n, 10)` entries and is the last part of the full one, in order |
| Groq.ChatStepOutcomes | app/services/groq_service.py:40-95 | Three outcomes. A raising lookup gives the apology with the transcript untouched. A failed completion gives the apology with the user turn appended and no cut. A reply returns the first choice, leaves 2 to 10 entries, and ends with the user turn followed by the reply |
| Groq.WindowOfAppend | app/services/groq_service.py:88-89 | Cutting to ten entries early does not change what a later cut keeps |
| Groq.ReplayKeepsLatest | app/services/groq_service.py:65-89 | After one or more successful exchanges, from any transcript (including one longer than ten entries left by failed calls), the transcript is exactly the ten most recent entries of everything recorded, in order; with no exchange, a transcript of at most ten entries is its own window |
| Groq.GroqService.constructor | app/services/groq_service.py:6-9 | The model is set, defaulting to `llama-3.3-70b-versatile`, and the transcript starts empty |
| Groq.GroqService.Chat | app/services/groq_service.py:37-95 | The returned text and the new transcript are those `ChatStep` gives for the old transcript and the looked-up context |
| Groq.GroqService.Respond | app/services/groq_service.py:45-91 | Once the context is known, `chat`'s prompt building, the append, the call, the append and the cut give `ChatStep`'s outcome |
| Groq.GroqService.ResetConversation | app/services/groq_service.py:97-99 | The transcript is empty afterwards whatever it held, so a second call changes nothing |
| Rag.LoaderFor | app/services/rag_service.py:173-178 | The text loader is picked exactly for `.txt`, the PDF loader exactly for `.pdf`, and no loader for any other name |
| Rag.JoinPath | app/services/rag_service.py:64 | `os.path.join` ends with the name. A relative name under a non-empty directory starts with the directory, with a `/` after it when the directory has none; an absolute name or an empty directory gives the name alone |
| Rag.SupportedFiles | app/services/rag_service.py:66-71 | A name is kept exactly when it is a listed entry with a loader |
| Rag.CollectedOnlySupported | app/services/rag_service.py:63-71 | The documents gathered from a listing are those gathered from its `.txt` and `.pdf` entries alone |
| Rag.NoSupportedNoDocuments | app/services/rag_service.py:63-73 | A directory with no `.txt` or `.pdf` entry yields no documents |
| Rag.CollectedFailsOnFailedLoad | app/services/rag_service.py:63-71 | One supported entry whose loader raises makes the whole collection raise |
| Rag.CollectDocuments | app/services/rag_service.py:59-71 | The loop gathers exactly the corpus: nothing for a missing directory, a raise for an unreadable one, and otherwise the supported entries' documents in listing order |
| Rag.BuiltChunks | app/services/rag_service.py:73-92 | A new store is built exactly when the corpus was gathered and is non-empty, and it holds the split of that corpus |
| Rag.FullQuestion | app/services/rag_service.py:140-142 | The question is unchanged when the customer context is empty. Otherwise it is the question, then "\n\nCustomer Context: ", then the context |
| Rag.SourceName | app/services/rag_service.py:151-152 | A document with no `source` is named `FAQ`. Otherwise the name is the text after the last `/` of its source: a suffix with no `/`, preceded by a `/` when shorter |
| Rag.SourceNamesAt | app/services/rag_service.py:150-152 | The `i`-th name is the `i`-th document's name |
| Rag.SourceNamesOfPrefix | app/services/rag_service.py:150-152 | The names of the first `k` documents are the first `k` names |
| Rag.Dedup | app/services/rag_service.py:153-154 | The result has no duplicates and holds exactly the input's elements |
| Rag.DedupOfPrefix | app/services/rag_service.py:148-154 | De-duplicating a prefix gives a prefix of the result, so elements appear in first-seen order |
| Rag.DedupOfDistinct | app/services/rag_service.py:153-154 | A list without duplicates is left unchanged |
| Rag.CollectSources | app/services/rag_service.py:148-154 | The membership-checked appends give exactly the de-duplicated source names of the documents |
| Rag.Sources | app/services/rag_service.py:148-154 | The sources are empty without `source_documents`, have no duplicates, and are exactly the documents' source names |
| Rag.SourcesOfPrefix | app/services/rag_service.py:148-154 | The sources of the first `k` retrieved documents open the reported sources |
| Rag.QueryOutcome | app/services/rag_service.py:131-168 | With no chain the answer is "Knowledge base not available." with no sources and `used_rag` false. `used_rag` is true exactly when the chain answers with a `result`, and then the answer is that result with its sources. Otherwise the answer is `None` with no sources |
| Rag.InitChoiceFor | app/services/rag_service.py:38-47 | The persisted store is loaded exactly when the persist directory exists and lists something. A new one is built exactly when the directory is missing or empty |
| Rag.VectorStore.constructor | app/services/rag_service.py:88-92 | A new store holds the given chunks under the given persist directory |
| Rag.VectorStore.AddDocuments | app/services/rag_service.py:189 | The new chunks follow the ones already held |
| Rag.RagService.constructor | app/services/rag_service.py:10-33 | The paths are kept, defaulting to `knowledge_base/docs` and `chroma_db`. A chain exists exactly when a store does. The store is the reopened one, the newly built one, or none, as `InitializeVectorstore` says |
| Rag.RagService.InitializeVectorstore | app/services/rag_service.py:35-53 | Load when the directory lists something, build when it is missing or empty, and set nothing when it cannot be listed or reopened. A chain is then made over whatever store results |
| Rag.RagService.CreateVectorstore | app/services/rag_service.py:55-97 | A fresh store of the split corpus replaces the old one when the corpus is non-empty. Otherwise the store is unchanged; the chain is never touched |
| Rag.RagService.CreateQaChain | app/services/rag_service.py:99-118 | With a store, the chain retrieves 3 documents from that very store; without one, the chain is unchanged |
| Rag.RagService.Query | app/services/rag_service.py:120-168 | The result is `QueryOutcome` for the chain's current chunks |
| Rag.RagService.AddedChunks | app/services/rag_service.py:173-186 | An unsupported extension or a failed load gives nothing to add; a supported extension whose load succeeds always gives the split of the loaded documents |
| Rag.RagService.AddDocument | app/services/rag_service.py:170-197 | True exactly when the file has a loader, the load succeeds and a store exists. The store's chunks then grow by the new chunks; otherwise they are unchanged |
| Rag.RagService.ReloadKnowledgeBase | app/services/rag_service.py:199-210 | True exactly when the persist directory is missing or could be removed; on false nothing changes. On true the store is rebuilt, or kept when there are no documents, and the chain invariant holds again |

## Left out

- Embeddings, similarity search and the retriever's ranking are not modelled (`rag_service.py:19-22, 105-107`). The chain is the `ask` parameter, which sees the whole store; only `k = 3` is recorded.
- The language models are not modelled (`groq_service.py:74-79`, `rag_service.py:25-30, 109-114`). Each is a function parameter.
- The text splitter's chunking, with size 500 and overlap 50, is an opaque parameter (`rag_service.py:80-84, 182-186`).
- Chroma's internals are not modelled. The model contains no `persist()`, and none of the disk effects of persisting or of `shutil.rmtree`. The directory listing is a fixed parameter, so a rebuild does not change what a later listing would show.
- `Chroma.from_documents` and `add_documents` are taken to succeed. The model has no exception from them, and none from `_create_qa_chain`.
- The ORM queries are replaced by first-match and filter functions over the two tables. For those queries, the model has no database errors, ordering clauses or duplicate keys.
- `amount` is kept as the text Python prints for it; number formatting is not modelled.
- The `print` logging of every handler and `load_dotenv()`'s reading of `.env` are left out. The environment is a parameter map.
- The model has no concurrency on the shared transcript, because the code has none.
- The routes, the Deepgram and analytics services, the ORM models, the browser script and the application wiring are not part of this model.
- Rag.RagService.Query: uses the `customer_context` default `""` and models the argument as a string. A caller passing `None` is not modelled.
