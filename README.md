# MedIQ: a Dafny model of the deterministic core

MedIQ is a health-guidance chat assistant. Most of it is agent prompts and
library glue. This project models the parts that are real code:

- **PDF ingestion** (`Rag.IngestPdf`). The chunk list is cut into consecutive
  batches of 30 texts, which are embedded one call at a time, and the vectors
  are appended in order. The result is one upsert of the vectors with a
  parallel list of `{text, source, chunkId = source-i}` records. Any index
  creation failure is swallowed; it is logged only when its message lacks
  "already exists".
- **Retrieval** (`Rag.RetrieveKnowledge`). The query is embedded as a
  one-element batch. The store is queried with `topK` (default 5) and a
  `{source}` filter only when the filter is a non-empty string. Hits are
  mapped to `{text, score, source}` with `''`, `0` and `'unknown'` for falsy
  fields. `Rag.GetKnowledgeBaseStats` returns the fixed status record.
- **The knowledge-search tool** (`KnowledgeSearch`). It gives an error
  summary, a no-results summary, or the results plus "Found N relevant
  passages from: ..." listing the distinct sources in first-seen order.
- **The CLI chat** (`Cli`). A class holds the chosen mode, the active agent
  and the append-only history. `Turn` handles one line of input: exit check,
  user entry, prompt rendering, reply with fallback text, and the one-way
  triage to doctor-recommender switch. `Converse` runs the loop over a script.
- **The doctor-search tool** (`DoctorSearch.Execute`). It builds the SQL and
  its parameters; a specialty wins over a condition, and every query ends in
  `LIMIT 5`. A failed query yields no doctors.
- **The HTTP handlers** (`Server`). `/chat` and `/chat/upload` validation
  order, the `resourceId || sessionId` memory scope, the upload extension
  filter (it runs before the handler and rejects with a 500 error page), the
  choice of extraction, and the composed message with the text
  cut to 5000 characters, while the full length is reported.
- **The ingestion script** (`IngestKnowledgeBase.IngestAll`). It keeps the
  `.pdf` entries and ingests them in listing order, stopping with exit code 1
  at the first failure.

External services are parameters. They are the embedder (a batch of texts
gives vectors, or `None` when the call throws), the vector store (query and
upsert), the database, the agents (a prompt gives a `Generation`), the
directory listing and the file's extracted text. Vectors are opaque
`seq<real>`.

A few properties of the code that the model keeps as they are:
- batching counts items only; there is no token ceiling;
- an existing index is recognised by the text of the error message;
- the vector dimension is never checked against the index;
- the CLI history is a local list, with no lock and no working memory.

## Model

| member | source | states |
|---|---|---|
| Rag.IndexNoteLogged | src/lib/rag.ts:26-37 | an index-creation failure is logged exactly when its message is missing or lacks "already exists"; the note carries the message |
| Rag.BatchCount | src/lib/rag.ts:59-64 | the loop makes ceil(n / 30) embedding calls |
| Rag.BatchSlice | src/lib/rag.ts:62-63 | batch k is the slice [30k, min(30k + 30, n)) of the chunk texts, non-empty and at most 30 long |
| Rag.BatchesFlatten | src/lib/rag.ts:62-71 | the batches, concatenated in order, are exactly the chunk texts |
| Rag.BatchesCover | src/lib/rag.ts:62 | the batches reach past the last chunk, so the loop ends after the last batch |
| Rag.VectorsLength | src/lib/rag.ts:60-71 | if each call returns one vector per input, there are as many vectors as chunks |
| Rag.VectorsAligned | src/lib/rag.ts:60-71 | with one vector per input, the vector at position 30k + j is the j-th vector of call k, and that call's j-th input is chunk 30k + j's text |
| Rag.ChunkIdsDistinct | src/lib/rag.ts:78-82 | chunk ids `source-i` use the global ordinal and are pairwise distinct within one ingestion |
| Rag.UpsertAligned | src/lib/rag.ts:75-83 | with one vector per input, the upsert's vectors and metadata have equal length, and the entries at each position belong to the same chunk |
| Rag.NextBatch | src/lib/rag.ts:63-68 | the texts of `chunks.slice(i, i + 30)` are the batch the loop's i-th step embeds |
| Rag.IngestPdf | src/lib/rag.ts:22-87 | the embed calls are the batches in order, stopping at the first failure; on success there are ceil(n/30) calls and one upsert of the appended vectors with the metadata list; the result is the chunk count; zero chunks give no calls and empty lists; the index is requested as ('knowledge_embeddings_v4', 768), the upsert goes to that same index, and the index outcome only affects the logged note |
| Rag.ShapeHit | src/lib/rag.ts:107-111 | a hit's text, score and source are copied when truthy and otherwise become '', 0 and 'unknown'; the source is never empty |
| Rag.ShapeHits | src/lib/rag.ts:107-111 | the mapping keeps the count and the order of the raw hits |
| Rag.QueryFilter | src/lib/rag.ts:104 | the filter is `{source: sourceFilter}` exactly when the filter is a non-empty string, otherwise none |
| Rag.EffectiveTopK | src/lib/rag.ts:90 | topK defaults to 5 and is otherwise passed through unchanged |
| Rag.QueryFor | src/lib/rag.ts:90-105 | the store query uses element 0 of the one-element embedding batch, the index name, topK and the filter; no query without a vector |
| Rag.RetrieveKnowledge | src/lib/rag.ts:90-112 | retrieval succeeds exactly when embedding and query succeed, and then returns one shaped passage per hit, in order |
| Rag.GetKnowledgeBaseStats | src/lib/rag.ts:114-124 | the stats record has index 'knowledge_embeddings_v4', dimension 768, model 'text-embedding-004', provider 'PgVector' and status 'connected': the index name and dimension that `IngestPdf` requests from `createIndex` |
| KnowledgeSearch.DistinctElements | src/mastra/tools/knowledgeSearch.ts:44 | the de-duplicated source list has no repeats and contains exactly the sources that occur |
| KnowledgeSearch.DistinctFirstSeenOrder | src/mastra/tools/knowledgeSearch.ts:44 | the de-duplicated list is ordered by first occurrence |
| KnowledgeSearch.FirstIndexInPrefix | src/mastra/tools/knowledgeSearch.ts:44 | appending elements does not move the first occurrence of an element already present |
| KnowledgeSearch.ToolOutput | src/mastra/tools/knowledgeSearch.ts:28-52 | a thrown retrieval gives no results and "Error searching knowledge base."; no hits give the exact no-results summary; otherwise the results are copied unchanged and the summary starts "Found N relevant passages from: " |
| KnowledgeSearch.SummarySources | src/mastra/tools/knowledgeSearch.ts:44 | the summary lists, joined by ", ", every result source exactly once and nothing else |
| KnowledgeSearch.Execute | src/mastra/tools/knowledgeSearch.ts:25-53 | execute runs retrieval with topK defaulted to 5 and never propagates an error; empty results come only with one of the two fixed summaries |
| KnowledgeSearch.ExecuteTopK | src/mastra/tools/knowledgeSearch.ts:12-26 | the store is asked for 5 results when topK is omitted |
| Cli.AgentForMode | src/index.ts:20-30 | '1' selects triage, '2' the document explainer, '3' the doctor recommender; any other string selects none |
| Cli.StartChat | src/index.ts:20-34 | an invalid mode starts no session; a valid one starts with that mode's agent and an empty history |
| Cli.Lines | src/index.ts:49 | each history entry is rendered as `role: content`, in order |
| Cli.PromptAppend | src/index.ts:45-49 | appending an entry adds its `role: content` line as the prompt's last line |
| Cli.ReplyText | src/index.ts:53 | a truthy reply is kept; a missing or empty reply becomes exactly "I'm having trouble thinking right now."; the appended reply is never empty |
| Cli.ChatSession.constructor | src/index.ts:21-34 | a session starts with the mode's agent and an empty history |
| Cli.ChatSession.Turn | src/index.ts:37-70 | exit in any case appends nothing; otherwise one user entry, a prompt whose last line is the input, and one assistant entry unless generation throws; only triage mode switches, to the doctor recommender, on "recommend a doctor" |
| Cli.ChatSession.Converse | src/index.ts:36-74 | the loop stops at the first exit; the new history is the old one followed by, for each handled turn, its user entry and, when answered, the reply; the history grows by one per turn plus one per answered turn; the final agent is `AgentAfter` of the handled turns, so in triage it is the doctor recommender exactly when it started there or an answered reply recommended a doctor, and elsewhere it never changes |
| Cli.AppendedLength | src/index.ts:45-54 | the turns append one user entry each and one reply per answered turn |
| Cli.AgentAfterReferral | src/index.ts:59-64 | outside triage the agent never changes; in triage the session ends on the doctor recommender exactly when it started there or some answered reply contained "recommend a doctor", and otherwise on the starting agent |
| DoctorSearch.LikePattern | src/mastra/tools/doctorSearch.ts:27 | the LIKE parameter is the lower-cased term between % wildcards |
| DoctorSearch.Execute | src/mastra/tools/doctorSearch.ts:20-41 | the exact SQL and parameters for specialty, condition only, or neither; the condition is ignored when a specialty is given; LIMIT 5 always ends the query; one parameter exactly when a WHERE clause is present; a failed query returns no doctors |
| Server.LastIndexOf | src/server.ts:42 | the position found holds the character and none after it does; no position when the character is absent |
| Server.BaseName | src/server.ts:42 | the base name is the whole path when it has no '/', and otherwise the suffix right after the last '/' (a '/'-free suffix preceded by '/') |
| Server.ExtnameShape | src/server.ts:42 | an extension is empty or a proper suffix of the base name that starts with its only '.'; it is empty exactly when there is no '.' past the base name's first character (or the name is "..") |
| Server.AcceptedFilesAreExtracted | src/server.ts:40-48 | the upload filter accepts a file exactly when its lower-cased extension has a pdf, text or image extraction branch |
| Server.BaseExtShape | src/server.ts:42 | a base name's extension is empty or a proper suffix starting with its only '.'; it is empty exactly when no '.' follows the first character, or the name is ".." |
| Server.ExtnameOfStem | src/server.ts:42 | a '/'-free non-empty stem followed by an extension `.xyz` (no further '.' or '/') has exactly that extension |
| Server.FileFilterOfStem | src/server.ts:40-48 | such a name is accepted exactly when its lower-cased extension is an allowed type, so `.PDF` and `.Jpeg` pass and `.exe` does not |
| Server.ExtractionFor | src/server.ts:107-116 | '.pdf' picks PDF parsing, '.txt' file text, '.png'/'.jpg'/'.jpeg' the image placeholder; anything else picks nothing |
| Server.Extracted | src/server.ts:103-116 | the image branch gives the placeholder naming the file, not a failure; PDF and text branches give the file's text; other extensions leave '' |
| Server.ExtractText | src/server.ts:103-116 | the handler's branch-by-branch assignment of extractedText gives the extracted text, or a failure when the read or the parse throws |
| Server.UserMessage | src/server.ts:119-121 | the message is a header chosen by whether `message` is truthy, followed by at most the first 5000 characters of the extracted text |
| Server.MemoryScopeFor | src/server.ts:70-75 | the thread is the session id and the resource is `resourceId` when truthy, else the session id |
| Server.Chat | src/server.ts:55-87 | 400 unless message and sessionId are both truthy; 500 without an agent or when generation throws; otherwise 200 with the reply (or the fallback) and the session as thread id |
| Server.AnswerUpload | src/server.ts:118-151 | without an agent 500; the agent gets the composed message in the session's memory scope; a throwing generation gives 500; success reports the reply (or the fallback), the file name, the extension and the full text length |
| Server.Upload | src/server.ts:40-160 | a file whose lower-cased extension is not allowed is rejected by the upload filter before the handler runs, with Express's 500 error page carrying "Invalid file type…"; a 200 reply only ever comes for an accepted file; then sessionId is checked before the file (400 each); a failed extraction, a missing agent or a failing generation gives 500; success reports the reply (or the fallback), the lower-cased extension and the full untruncated text length |
| IngestKnowledgeBase.PdfFiles | scripts/ingestKnowledgeBase.ts:11 | exactly the entries ending in ".pdf" (case-sensitive) are kept |
| IngestKnowledgeBase.PdfFilesAppend | scripts/ingestKnowledgeBase.ts:11 | the filter distributes over concatenation, so it keeps the listing order |
| IngestKnowledgeBase.IngestAll | scripts/ingestKnowledgeBase.ts:6-35 | a failed listing exits 1; no PDF files means no calls and a normal end; otherwise the files are ingested in order with their names as sources, and the run stops with exit code 1 at the first failure, else exits 0 |
| Text.NatToStringInjective | src/lib/rag.ts:81 | distinct numbers render as distinct decimal strings (used for chunk ids) |

## Left out

- Chunking (`MDocument.chunk` with the recursive strategy, sizes 1000 and 200): the chunk list is an input, because the library's algorithm is not part of this model.
- PDF parsing, file reading and deletion, Multer's disk storage, random file names and the 10 MB size limit: the extracted text is an input, and these are I/O.
- Embedding values, vector similarity, ranking and filtering in the store: vectors are opaque and the store is a parameter.
- Express transport, JSON plumbing, `/health` (it reads the clock) and `/kb/stats` routing; the stats record itself is modelled.
- The readline I/O and the LLM calls: input lines and replies are parameters. `process.exit` on exit is a `TurnResult` that ends the loop.
- Agent definitions, the Mastra instance, the database pool, the seed script and all React components: they are prompts, configuration, or UI.
- Concurrency: the code has no locking of its own.
- Server.Chat, Server.Upload: request fields are modelled as optional strings; JSON values of other types are not. Cleaning up the uploaded file is not modelled. Express's error page for a rejected file is `ErrorPage` with the filter's message; its HTML is not modelled.
- Text.Lower: lower-casing covers ASCII letters only. JavaScript's `toLowerCase` is full Unicode.
- Server.Upload, Server.UserMessage: lengths and the 5000-character cut count Unicode characters, while JavaScript counts UTF-16 code units.
- Server.ExtnameShape: the extension is taken from the last '/'-separated segment; Node's handling of trailing slashes is not modelled.
- Rag.ShapeHit: a NaN score, which JavaScript also treats as falsy, has no counterpart in `real`.
- Rag.QueryFor: an embedding reply with no vector is treated as a failed retrieval, since the code would query the store with `undefined`.
- IngestKnowledgeBase.IngestAll: the early return with no PDF files reports exit code 0, which is how the process ends when nothing else runs. Each file's ingestion is an abstract step that succeeds or fails; `path.join` is a plain "/" concatenation.
- Rag.EffectiveTopK: `topK` is an integer here, while JavaScript passes any number (fractional, negative or NaN) through to the store unchanged.
