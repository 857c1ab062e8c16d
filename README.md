# Verified model of the openllm RAG scripts

This project models, in Dafny, the bookkeeping that the openllm scripts perform themselves around the
services they call (Gemini, ChromaDB, FAISS, Ollama, Whisper, pypdf, Flask):

- **Knowledge-base builder** (`rag1/prepare_pdf_knowledge_base.py`):
  - reading PDF page text from a folder;
  - the sliding-window chunker;
  - the aligned chunk/metadata/id lists and their id scheme;
  - the normalisation of the embedding response;
  - the batched ingestion into a Chroma collection that is skipped when the collection is not empty.
- **Chat server over that knowledge base** (`rag1/app.py`): the retrieval fallbacks, the choice
  between the grounded and the general-knowledge prompt, the exact prompt strings, the fixed apology,
  and the validation of `/chat` input.
- **Locally hosted chatbot** (`rag2/app.py`): the `rag_chain` / `rag_initialized` state, changed by
  the set-up routine and read by `/chat`, the `.pdf` / `.md` file filter, and the choice between
  loading and rebuilding the FAISS index.
- **Meeting-minutes pipeline** (`meeting/run_pipeline.py`): the error-string conventions of the two
  stages, and which output files a run writes for which stage outcomes.

Every remote call is a parameter. A function-typed oracle says what the service returns for each
input, or a small sum type says whether it succeeded, returned nothing or raised. Strings are
`seq<char>`, and Python's `str.strip`, `str.replace`, `str.startswith`/`endswith`, slicing, `str(int)`
and `"\n".join` are defined in module `Strings` with the behaviour the scripts rely on.

Modules and files:

| file | module | models |
|---|---|---|
| strings.dfy | Strings | the Python string operations used |
| pdf_loader.dfy | PdfLoader | `load_pdf_documents_from_folder` |
| chunker.dfy | Chunker | `chunk_text` |
| chunk_ids.dfy | ChunkIds | the loop building `all_chunks`, `chunk_metadata`, `chunk_ids` |
| gemini.dfy | Gemini | the shape of an `embed_content` response |
| ingestion.dfy | Ingestion | `get_gemini_embeddings`, the Chroma collection, the batch loop, the whole builder script |
| rag_chat.dfy | RagChat | `rag1/app.py` |
| rag_service.dfy | RagService | `rag2/app.py` |
| meeting_pipeline.dfy | MeetingPipeline | `meeting/run_pipeline.py` |

## Model

| member | source | states |
|---|---|---|
| Strings.TrimStart | rag1/prepare_pdf_knowledge_base.py:40-41 | `lstrip`: the result is a suffix of the input that does not start with whitespace, and everything removed is whitespace (Python's `isspace` set) |
| Strings.TrimEnd | rag1/prepare_pdf_knowledge_base.py:40-41 | `rstrip`: the result is a prefix of the input that does not end with whitespace, and everything removed is whitespace |
| Strings.StripEmptyIffBlank | rag1/prepare_pdf_knowledge_base.py:40 | `s.strip()` is empty exactly when `s` is whitespace only |
| Strings.Replace | rag1/prepare_pdf_knowledge_base.py:83 | `str.replace` leaves a string without any occurrence of the pattern unchanged |
| Strings.PySlice | rag1/prepare_pdf_knowledge_base.py:56 | for non-negative bounds, Python slicing is the clipped sub-sequence `s[min(lo,n)..min(hi,n)]` |
| Strings.NatToString | rag1/prepare_pdf_knowledge_base.py:83 | `str(n)` is a non-empty string of decimal digits, of at least two digits from 10 on |
| Strings.NatToStringInjective | rag1/prepare_pdf_knowledge_base.py:83 | distinct counters have distinct decimal strings |
| Strings.SplitLastField | rag1/prepare_pdf_knowledge_base.py:83 | splitting `x + "_" + a` at its last `_`, where `a` has no `_`, gives back `x` and `a` |
| Strings.JoinContainsPart | rag1/app.py:83 | every part of a `"\n".join` occurs verbatim in the joined string |
| Strings.StartsWith | meeting/run_pipeline.py:93 | defined as: the prefix is no longer than the string and equals its first characters, as `str.startswith` |
| Strings.EndsWith | rag1/prepare_pdf_knowledge_base.py:30 | defined as: the suffix is no longer than the string and equals its last characters, as `str.endswith` |
| Strings.Strip | rag1/prepare_pdf_knowledge_base.py:40-41 | defined as `rstrip` applied to `lstrip`, whose contracts give the whitespace removed on each side |
| Strings.Join | rag1/app.py:83 | defined as: empty for no parts, the part itself for one, and otherwise the first part, the separator, and the join of the rest, as `sep.join` |
| PdfLoader.LoadPdfDocuments | rag1/prepare_pdf_knowledge_base.py:26-48 | the nested loops over files and pages return exactly `LoadedDocuments(folder)` |
| PdfLoader.PageText | rag1/prepare_pdf_knowledge_base.py:33-39 | defined as: the text of every page that has non-empty text, each followed by a blank line, in page order; pages without text add nothing |
| PdfLoader.EntryDocument | rag1/prepare_pdf_knowledge_base.py:29-47 | defined as: no document for a non-`.pdf` name or a raised read, and the stripped page text under the file name unless it strips to empty; `EntryDocumentIff` states it as an equivalence |
| PdfLoader.EntryDocumentIff | rag1/prepare_pdf_knowledge_base.py:30-45 | a file yields a document exactly when its name ends in `.pdf`, reading did not raise and its page text is not whitespace only; the document is the stripped page text under the file name |
| PdfLoader.SkippedEntryAffectsOnlyItself | rag1/prepare_pdf_knowledge_base.py:44-47 | a file that raised, is not a PDF, or has blank text is skipped, and the documents are those of the files before it followed by those after it |
| PdfLoader.EntryDocumentLoaded | rag1/prepare_pdf_knowledge_base.py:28-41 | every readable, non-blank PDF of the folder contributes its document |
| PdfLoader.LoadedDocumentOrigin | rag1/prepare_pdf_knowledge_base.py:28-41 | every document comes from some file of the folder, is named after a `.pdf` file and has non-blank text |
| PdfLoader.LoadedDocumentsAppend | rag1/prepare_pdf_knowledge_base.py:28-47 | files are processed independently: the documents of two listings side by side are those of each |
| PdfLoader.NoPageTextOmitted | rag1/prepare_pdf_knowledge_base.py:34-43 | a PDF none of whose pages has extractable text yields no document |
| Strings.StripIdempotent | rag1/prepare_pdf_knowledge_base.py:40-41 | stripping is idempotent, so a stored document text is its own `strip()` |
| Chunker.ChunkText | rag1/prepare_pdf_knowledge_base.py:50-61 | the `while` loop returns `Chunks(text, chunkSize, overlap)`, and `[]` exactly for empty text; it requires `chunkSize > overlap`, without which it does not terminate |
| Chunker.ChunkAt | rag1/prepare_pdf_knowledge_base.py:54-58 | chunk `k` is `text[k*step : k*step+chunk_size]` with `step = chunk_size - overlap`, and its start lies inside the text |
| Chunker.ChunkCount | rag1/prepare_pdf_knowledge_base.py:54-58 | there are `ceil(len(text) / step)` chunks |
| Chunker.ChunkBounds | rag1/prepare_pdf_knowledge_base.py:54-58 | with a positive window every chunk is non-empty and at most `chunk_size` long |
| Chunker.RoundTrip | rag1/prepare_pdf_knowledge_base.py:54-58 | the first chunk followed by `chunk[overlap:]` of every later chunk is the text again |
| ChunkIds.AssembleChunks | rag1/prepare_pdf_knowledge_base.py:75-87 | the nested loops build the three lists of `Entries(docs)` (index-aligned texts, metadata and ids), and the ids are pairwise distinct |
| ChunkIds.ChunkId | rag1/prepare_pdf_knowledge_base.py:83 | defined as: the source with `.pdf` replaced by nothing, `_`, the document counter in decimal, `_`, the chunk index in decimal; `ChunkIdParse` reads both numbers back |
| ChunkIds.EntriesShape | rag1/prepare_pdf_knowledge_base.py:80-87 | entry `j` is chunk `i` of document `d` with that document's source, and entries run in document order then chunk order |
| ChunkIds.ChunkIdParse | rag1/prepare_pdf_knowledge_base.py:83 | the last two `_`-fields of an id are the chunk index and the document counter, and the rest is the source with `.pdf` removed |
| ChunkIds.ChunkIdInjective | rag1/prepare_pdf_knowledge_base.py:83 | equal ids have equal document counters and chunk indices |
| ChunkIds.IdsDistinct | rag1/prepare_pdf_knowledge_base.py:78-87 | no two chunks of a knowledge base share an id |
| Ingestion.GetGeminiEmbeddings | rag1/prepare_pdf_knowledge_base.py:94-123 | the result is `[]` exactly for empty input, a raised call, a reply without `'embedding'`, or an empty embedding list; otherwise it is a list of vectors, with a flat vector wrapped and a nested list passed through |
| Ingestion.Collection.Add | rag1/prepare_pdf_knowledge_base.py:139-147 | `add` appends one record per chunk, in order, exactly when the four lists have equal lengths and the store does not raise; otherwise nothing changes |
| Ingestion.Collection.Count | rag1/prepare_pdf_knowledge_base.py:126 | `collection.count()`: the number of records stored |
| Ingestion.BatchRecords | rag1/prepare_pdf_knowledge_base.py:130-147 | defined as: the records of batch `b` zipped from its ids, chunks, metadata and embeddings when the embeddings are non-empty, the four lists have equal lengths and `add` does not raise; otherwise none |
| Ingestion.IngestChunks | rag1/prepare_pdf_knowledge_base.py:126-152 | a non-empty collection is left unchanged; an empty one ends holding `Ingested(corpus, outcomes)`, the records of the batches in order |
| Ingestion.PrepareKnowledgeBase | rag1/prepare_pdf_knowledge_base.py:64-152 | a missing folder or a folder without usable PDFs changes nothing; otherwise the collection is filled from the chunks of the loaded documents |
| Ingestion.BatchesCover | rag1/prepare_pdf_knowledge_base.py:129-132 | the batches, concatenated in order, are the list again |
| Ingestion.BatchSizes | rag1/prepare_pdf_knowledge_base.py:129-132 | each batch has between 1 and 10 elements, and all but the last have exactly 10 |
| Ingestion.BatchRecordsAt | rag1/prepare_pdf_knowledge_base.py:130-144 | record `k` of batch `b` stores chunk `10*b + k` with that chunk's own id and metadata |
| Ingestion.IngestedProvenance | rag1/prepare_pdf_knowledge_base.py:126-149 | every stored record holds one chunk of the corpus together with that chunk's id and metadata |
| Ingestion.IngestedIdsDistinct | rag1/prepare_pdf_knowledge_base.py:126-149 | ingesting a corpus whose ids are distinct stores no id twice |
| Ingestion.KnowledgeBaseIdsDistinct | rag1/prepare_pdf_knowledge_base.py:75-149 | the built knowledge base never stores two records under one id |
| Ingestion.AllBatchesStored | rag1/prepare_pdf_knowledge_base.py:126-149 | when every batch embeds one vector per chunk and `add` never raises, the collection holds one record per chunk, in chunk order |
| Ingestion.FailedBatchResults | rag1/prepare_pdf_knowledge_base.py:135-149 | a batch whose embedding fails or whose `add` raises contributes nothing, and every other batch is unaffected |
| Ingestion.FailedBatchIsolated | rag1/prepare_pdf_knowledge_base.py:129-149 | a failed batch loses only its own records: the stored records are those of the batches before it followed by those after it |
| RagChat.QueryEmbedding | rag1/app.py:42-52 | the query embedding is None exactly when the call raised or the reply had no `'embedding'` |
| RagChat.FirstDocuments | rag1/app.py:63-72 | a reply whose `'documents'` is a non-empty list gives its first document list, and a non-empty result only comes from such a reply |
| RagChat.RetrieveDocuments | rag1/app.py:54-72 | with no collection nothing is called and `[]` is returned; otherwise the query is embedded first, the store is queried for `k` results only with that embedding, and when the store was queried the chunks are the first document list of its reply, otherwise none |
| RagChat.Context | rag1/app.py:83 | defined as the retrieved chunks joined by newlines |
| RagChat.GroundedPrompt | rag1/app.py:89-100 | defined as the fixed instructions (with the refusal sentence), the context, the question header, the question and the answer header; `GroundedPromptShape` gives where each part sits |
| RagChat.Prompt | rag1/app.py:78-100 | defined as the fallback prefix and the question when no chunks were retrieved, and the grounded prompt over the joined chunks otherwise |
| RagChat.GenerateResponseWithRag | rag1/app.py:74-108 | the calls are the retrieval's calls followed by one last call, generation with `Prompt` of the retrieved chunks; the answer is the generated text, or the fixed apology when generation raised |
| RagChat.Chat | rag1/app.py:117-125 | a missing or empty message gives 400 with the fixed text and no remote call; otherwise 200 with the generated answer |
| RagChat.GenerationIsLastCall | rag1/app.py:76-108 | each answered request makes exactly one generation call, as its last call |
| RagChat.StoreQueriedWithTopK | rag1/app.py:59-76 | a store query is always the second call, follows a successful embedding of the same question, and asks for 5 results |
| RagChat.FallbackWhenNothingRetrieved | rag1/app.py:78-80 | with nothing retrieved the prompt is exactly the fixed instruction followed by the question |
| RagChat.PromptChoice | rag1/app.py:78-100 | the prompt is the fallback prompt exactly when nothing was retrieved, and the grounded prompt over the newline-joined chunks otherwise |
| RagChat.GroundedPromptShape | rag1/app.py:83-100 | the grounded prompt holds the refusal sentence, the question at a fixed offset, and every retrieved chunk verbatim before the question |
| RagChat.ApologyOnGenerationFailure | rag1/app.py:103-124 | a raised generation call gives the fixed apology as the chat response |
| RagChat.NoCollectionGeneratesOnly | rag1/app.py:55-80 | without a collection the only call is the generation call with the fallback prompt |
| RagService.FileKind | rag2/app.py:50-57 | a path goes to the PDF loader exactly when it ends in `.pdf`, to the text loader exactly when it ends in `.md` and not `.pdf`, and is ignored otherwise |
| RagService.Attempted | rag2/app.py:64-100 | the attempted library steps form a prefix of the plan in which every step but the last succeeded; either the whole plan succeeded or the last attempted step raised |
| RagService.LoadAll | rag2/app.py:47-57 | defined over the listing: each `.pdf` or `.md` file is handed to its loader in order and its documents appended; the first loader that raises ends loading with the steps up to it; `LoadAllTrace` states the resulting trace |
| RagService.Build | rag2/app.py:64-102 | defined as: the library steps after loading, attempted in order up to the first that raises, with a chain of retriever size 4 and the system prompt only when none raised, its index from disk when the index folder exists and built from the split documents otherwise |
| RagService.SetupRun | rag2/app.py:29-107 | defined as: already initialized does nothing; a failing `makedirs` or loader fails; no documents ends without a chain; otherwise the outcome of `Build`; `SetupTrace`, `ReadyChainIndex` and `IndexLoadedNotRebuilt` state its properties |
| RagService.LoadAllTrace | rag2/app.py:47-57 | the loading loop loads the `.pdf` and `.md` files in listing order: all of them when no loader raises, and up to the raising one otherwise |
| RagService.IgnoredFileHasNoEffect | rag2/app.py:47-57 | a listed file that is neither `.pdf` nor `.md` changes nothing |
| RagService.LoaderFailureAbortsSetup | rag2/app.py:47-106 | a loader raising on any one document file makes the whole set-up fail |
| RagService.SetupTrace | rag2/app.py:37-106 | a failed set-up stopped at the one step that raised, after every earlier step succeeded; otherwise every attempted step succeeded, and a ready set-up ends by building the chain |
| RagService.SetupLoadsOnlyDocuments | rag2/app.py:50-57 | every file set-up loads is a `.pdf` given to the PDF loader or a `.md` given to the text loader |
| RagService.IndexLoadedNotRebuilt | rag2/app.py:75-81 | an existing index folder is loaded and never rebuilt or saved over; a missing one is never loaded |
| RagService.ReadyChainIndex | rag2/app.py:75-100 | a ready chain uses the index from disk exactly when the folder existed, and otherwise one built and saved; its retriever fetches 4 chunks and it carries the fixed system prompt |
| RagService.RagServer.constructor | rag2/app.py:24-25 | the service starts with no chain and not initialized |
| RagService.RagServer.Setup | rag2/app.py:29-107 | does nothing when already initialized; otherwise returns the attempted steps of `SetupRun` and becomes initialized, with the chain, exactly when the run is ready; a failed run resets the chain to none, and a run without documents leaves both fields as they were; `rag_initialized` holds exactly when a chain is set, before and after |
| RagService.RagServer.Chat | rag2/app.py:122-142 | a form without `user_input` is refused; before initialization the answer is the waiting message with status `initializing` and the chain is not invoked; after it the status is `ready` and the chain is invoked, its answer or the `오류 발생:` error text being returned; the default "not ready" text is never sent when the invariant holds |
| RagService.RagServer.SetupThenChat | rag2/app.py:60-130 | after a set-up that does not end ready, every later request gets the waiting message |
| MeetingPipeline.TranscribeAudio | meeting/run_pipeline.py:7-28 | a missing file gives the marked not-found message before any model is loaded; a raised Whisper call gives the marked recognition error; otherwise the transcribed text |
| MeetingPipeline.SummarizeText | meeting/run_pipeline.py:31-67 | a raised Ollama call gives the marked Ollama error; otherwise the message content |
| MeetingPipeline.SummaryPrompt | meeting/run_pipeline.py:38-53 | defined as the fixed instructions, `---`, the source header, the transcript, `---` and the closing request; `SummaryPromptEmbedsText` gives their positions |
| MeetingPipeline.AfterTranscription | meeting/run_pipeline.py:93-120 | defined as: nothing written for a transcript starting with `오류:` or of whitespace only; otherwise the transcript file, then the summary file unless the summary starts with `오류:` |
| MeetingPipeline.Pipeline | meeting/run_pipeline.py:70-120 | defined as `AfterTranscription` of the transcription of `meeting.mp3`; the lemmas below state which files each combination of outcomes writes |
| MeetingPipeline.MainPipeline | meeting/run_pipeline.py:70-90 | a full run writes exactly the files `Pipeline` states for the given recording, Whisper and Ollama outcomes, in that order |
| MeetingPipeline.RunStages | meeting/run_pipeline.py:93-120 | after transcription the stages write exactly the files `AfterTranscription` states: nothing for an error string or blank text, then the transcript, then the summary unless it is an error string |
| MeetingPipeline.TranscriptionErrorsMarked | meeting/run_pipeline.py:14-28 | every error string of the speech stage starts with `오류:`, and a missing file loads no model |
| MeetingPipeline.SummaryErrorsMarked | meeting/run_pipeline.py:66-67 | a failed summary call yields a string starting with `오류:` |
| MeetingPipeline.SummaryPromptEmbedsText | meeting/run_pipeline.py:38-53 | the summary prompt holds the transcript verbatim between an opening and a closing `---` |
| MeetingPipeline.TranscriptionErrorHalts | meeting/run_pipeline.py:90-95 | a missing recording or failed transcription stops the run with nothing written and no summary requested |
| MeetingPipeline.MarkedTranscriptHalts | meeting/run_pipeline.py:93-95 | a genuine transcript beginning with `오류:` halts the run exactly like an error |
| MeetingPipeline.BlankTranscriptHalts | meeting/run_pipeline.py:98-100 | a whitespace-only transcript stops the run with nothing written |
| MeetingPipeline.TranscriptWrittenFirst | meeting/run_pipeline.py:103-120 | a summary is requested exactly when the transcript has been written; the transcript is the first file, the summary the second, and there are at most two |
| MeetingPipeline.SummaryErrorLeavesTranscriptOnly | meeting/run_pipeline.py:110-115 | a failed summary leaves exactly one file, the transcript |
| MeetingPipeline.SuccessfulRunWritesBoth | meeting/run_pipeline.py:103-120 | a run in which every stage succeeds writes the transcript and then the summary |

## Left out

- Python's `isspace` set is written out explicitly. Unicode case and normalisation do not arise
  because the scripts do not use them.
- `os.listdir` order, `os.path.exists`, `os.makedirs`, `exit()`, `print`, `time.time()` and file
  writes are inputs or are left out. A pipeline file write is recorded as an `Artifact` event, and
  creating `output/` is not modelled.
- `PdfReader` and `extract_text` are an input per file: it either raises or gives a list of optional
  page strings.
- Floats in embedding vectors are opaque `real`s. Integers inside an embedding list, similarity
  ranking, result counts and result order inside Chroma or FAISS are not modelled.
- `Ingestion.Collection`: `get_or_create_collection` failing at start-up, which leaves `collection`
  unbound so the script then stops with a `NameError`, is not modelled; the collection is always
  present.
- `Ingestion.Collection.Add`: the model covers only the store's refusal of lists of unequal length
  and one failure flag per batch. Chroma's other checks, such as duplicate ids already in the store,
  are folded into that flag.
- `RagChat.Chat`: only a missing or empty-string `message` is modelled. Other falsy JSON values, a
  non-string message, and a request whose body is not JSON are not modelled.
- `RagChat`: the collection loaded at start-up is a boolean. Loading it at lines 27-35 is an input,
  and the printing loop over the chunks at lines 85-87 is left out.
- `RecursiveCharacterTextSplitter` (chunk size 1000, overlap 100) is an opaque function on the loaded
  documents, because its algorithm lives in a library outside this repository.
- `OllamaEmbeddings`, FAISS, `Ollama` and the chain constructors are steps that either succeed or
  raise. The prompt template's system text is kept as a constant.
- `threading.Thread` and `rag_init_lock` are not modelled: set-up and `chat` are sequential calls on
  one `RagServer` object.
- `render_template`, the `/` routes, `jsonify`, `app.run` and `rag1/static/script.js` (browser UI
  and `fetch`) are not modelled.
- `os.path.join` is modelled as joining with `/` (POSIX).
- `rag1/app.py` carries no strict answer-only-from-context mode. The code always falls back to a
  general-knowledge prompt when nothing is retrieved, and that is what is modelled.
- `rag2/app.py` loaders are not guarded per file: one raising loader aborts the whole set-up, which
  differs from the builder script in `rag1`. The model follows the code (`RagService.LoaderFailureAbortsSetup`).
- `rag2/app.py` returns early when no documents load, without resetting `rag_chain`. Because
  the chain is never set before initialization, that leaves it none.
