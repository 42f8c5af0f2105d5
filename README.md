# Taiwan law RAG — a Dafny model of its core

The system answers legal questions about Taiwanese statutes by
retrieval-augmented generation.

- An ingestion script reads the national statute corpus (a JSON file of laws
  and their ordered articles). It turns every substantive article into a
  chunk tagged with its law and article number, and writes the chunks to a
  Qdrant vector store.
- A query side checks the Ollama and Qdrant services and builds a retrieval
  chain. It renders retrieved chunks into a labelled context for the
  language model, and reports each answer with its source records.
- A web front end guards against blank questions and caches the built chain
  for the life of the process. It shows the numbered source list, each entry
  cut to 300 characters.

This project models that logic and proves what it promises:

- `load_json_documents`, the rebuild of law records, `split_documents`, the
  error messages of `create_embeddings` and `store_documents_in_qdrant`, and
  the stages and error classification of `ingest_documents`;
- `create_rag_chain` (probe order and error wrapping), its inner
  `format_docs`, and `query`;
- `initialize_rag_chain` and `answer_question`.

All external services are parameters saying what the service did:

- the text splitter is a function from a text to its pieces;
- the embedding model load and the Qdrant write are outcomes;
- the service probes are booleans;
- the retriever and the language model are functions.

Modules, one per file:

- `Wrappers`: Option, Result and a pass/fail Outcome.
- `Text`: Python's `strip`, substring test, ASCII `lower`, `join` and `str(n)`.
- `Sequences`: ordered flattening.
- `Documents`: LangChain documents.
- `Statutes`: laws and articles with the `dict.get` defaults.
- `Chunking`: `split_documents`.
- `Settings`: configuration values.
- `IngestErrors`: exception kinds and their `error_type`.
- `Loading`: `load_json_documents` and the rebuild.
- `Ingest`: the pipeline.
- `Rag`: the chain, the context and the query.
- `App`: the web logic and the cache, as the class `RagApp`.

## Model

| member | source | states |
|---|---|---|
| Chunking.SplitDocuments | src/ingest.py:185-237 | the chunks are exactly those of `SplitLaws`: law by law, article by article, each qualifying article giving one chunk (or the splitter's pieces when longer than the chunk size) |
| Chunking.AppendArticles | src/ingest.py:195-234 | the article loop appends the chunks of one law's articles, in article order, to what was already split |
| Chunking.AppendArticle | src/ingest.py:196-234 | one article appends nothing unless its type is "A" and its stripped content is non-empty; otherwise one chunk, or one per splitter piece, all with the article's metadata |
| Chunking.PieceDocs | src/ingest.py:212-222 | each splitter piece becomes one document, in order, carrying the law fields and article number |
| Chunking.ChunkProvenance | src/ingest.py:195-234 | every chunk comes from a qualifying article of some law, carries exactly that law's fields and that article's number, and holds the article's text or a splitter piece of it |
| Chunking.SplitLawsConcat | src/ingest.py:187 | chunks keep law order: splitting two lists of laws is splitting each and concatenating |
| Chunking.LawChunksConcat | src/ingest.py:195 | within a law, chunks keep article order |
| Chunking.ArticlesChunkCount | src/ingest.py:195-234 | when no article text exceeds the chunk size, one law yields one chunk per qualifying article |
| Chunking.ChunkCountWhenAllFit | src/ingest.py:211-234 | when no article text exceeds the chunk size, the chunk count equals the number of qualifying articles over all laws |
| Chunking.SplitterUnusedWhenAllFit | src/ingest.py:211-212 | the splitter is consulted only for over-long texts: when all fit, the chunks do not depend on it |
| Statutes.ChunkTextShape | src/ingest.py:205-208 | a chunk text is the stripped number, a newline and the stripped content (the bare content without a number), and has no outer whitespace when the article qualifies |
| Loading.LoadResult | src/ingest.py:104-164 | a missing, malformed or unreadable file fails with a `JSONLoadError` carrying the matching message; a decoded file gives one document per law, in order, and none when "Laws" is absent |
| Loading.LoadAll | src/ingest.py:115-155 | one document per law, position by position |
| Loading.LoadJsonDocuments | src/ingest.py:104-164 | the loop over the decoded laws returns `LoadResult` |
| Loading.PageContentLines | src/ingest.py:125-139 | the article loop yields the page lines: a "C" heading gives a newline and its content; a qualifying "A" article gives its chunk text; anything else gives nothing |
| Loading.PageLineCount | src/ingest.py:125-139 | the page has one line per heading plus one per qualifying article |
| Loading.QualifyingLineIsChunkText | src/ingest.py:134-139 | every qualifying article's chunk text appears as a line of its law's page text |
| Loading.LinesAreChunkTexts | src/ingest.py:125-141 | without headings and with every article fitting, the page lines are the chunk texts, in order |
| Loading.PageContentIsChunkTexts | src/ingest.py:118-141 | in that case a law's page text is its chunks' texts joined by newlines |
| Loading.RebuildRoundTrip | src/ingest.py:348-358 | loading then rebuilding a law keeps its (defaulted) name, level, category, URL, date and original articles |
| Loading.RebuiltLawsSplitAlike | src/ingest.py:348-362 | splitting the rebuilt records gives exactly the chunks of the laws as parsed from the file |
| Ingest.RebuildLaws | src/ingest.py:348-358 | one rebuilt law record per loaded document, in order |
| IngestErrors.ErrorType | src/ingest.py:391-402 | every failure is reported as one of "ollama", "qdrant", "json" or "unknown" |
| IngestErrors.ErrorTypeIdentifiesKind | src/ingest.py:391-402 | two errors share an error type exactly when they are of the same kind; "unknown" is exactly the exceptions of no ingestion kind |
| Ingest.StoreInQdrant | src/ingest.py:290-313 | nothing is raised only when Qdrant answers the probe and the write succeeds; every failure is a `QdrantConnectionError`, with the unreachable, connection and generic messages in their cases |
| Ingest.ConnectionMessageSearch | src/ingest.py:308 | a write failure counts as a connection failure exactly when "connection" or "refused" occurs in its text in any letter case |
| Ingest.StoreMessageKeepsDetail | src/ingest.py:309-313 | a failed write's own error text appears inside the reported message |
| Ingest.LoadEmbeddings | src/ingest.py:253-268 | a failed model load raises a plain exception: the missing-model message when the text holds "404" or "not found" in any case, the generic one otherwise |
| Ingest.EmbeddingMessageKeepsDetail | src/ingest.py:261-268 | a failed model load's own error text appears inside the raised message |
| Ingest.JsonPath | src/ingest.py:332-335 | an explicit path is used as given; otherwise the path is the project root, one "/" (none when the root is empty or already ends in "/"), then "data/chlaw.json/ChLaw.json", as `os.path.join` builds it |
| Ingest.StoreStages | src/ingest.py:365-402 | a model that cannot be loaded stops the run with that stage's own error message, then an unreachable or failing Qdrant with its message; success exactly when both pass, reporting the law and chunk counts, the collection and the model |
| Ingest.StoreStagesErrorTypes | src/ingest.py:394-402 | a model-load failure is reported as "unknown" and a Qdrant failure after it as "qdrant" |
| Ingest.IngestOutcome | src/ingest.py:341-402 | a load failure is reported as "json" with the loader's message; past loading, what is written is exactly the chunks of the parsed laws at chunk size 1000; no stage reports "ollama" |
| Ingest.IngestDocuments | src/ingest.py:316-402 | the pipeline (default path, load, rebuild, split, model, store) reports `IngestOutcome` |
| Ingest.ExitCode | src/ingest.py:405-407 | the script exits 0 exactly when ingestion succeeded, and 1 otherwise |
| Text.NatToString | src/config.py:42 | the port in URLs and messages is its canonical decimal numeral, which reads back as the port |
| Rag.CreateRagChain | src/rag.py:104-237 | Ollama is probed first, Qdrant only if Ollama answers, and the chain is built only if both do; a failed probe raises its own connection error; a build failure is wrapped in `RAGError` with the prefix and the original text |
| Rag.FormatDocs | src/rag.py:208-215 | the context is each document's "【law 第no條】" block with defaults "未知法律" and "未知條文", in retrieval order, joined by blank lines |
| Rag.ContextOfFew | src/rag.py:208-215 | no documents give an empty context; one document gives its block alone |
| Rag.ContextConcat | src/rag.py:208-215 | rendering keeps order: the context of two runs is theirs joined by one blank line |
| Rag.ChunkContextBlock | src/rag.py:210-214 | for chunks made by ingestion the defaults never show: each block names the chunk's law and article number |
| Rag.ChunkSource | src/rag.py:281-290 | for a chunk made by ingestion, the source record names its law, article number and law URL, holds the chunk text verbatim and scores 0.0 |
| Rag.QueryAnswer | src/rag.py:263-303 | a blank question gets "請輸入問題"; a retrieval or generation failure gets the error prefix and its text; otherwise the model's answer and one source per retrieved document, in order; failures carry no sources |
| Rag.QuerySuccess | src/rag.py:263-296 | a query succeeds exactly when the question has text and both retrieval and generation succeed |
| Rag.FailedQueryAnswer | src/rag.py:263-303 | every failed query answers with the fixed prompt or starts with "查詢時發生錯誤: " |
| Rag.Query | src/rag.py:240-303 | `query` returns `QueryAnswer`; it calls nothing for a blank question, retrieves once when retrieval fails, and otherwise retrieves, then retrieves again and generates inside the chain |
| Text.StripEmptyIffAllSpace | src/rag.py:263 | a stripped text is empty exactly when every character is whitespace |
| Text.BlankIffAllSpace | src/app.py:51 | the blank-question guard holds exactly for texts made only of whitespace |
| Text.StripSpec | src/ingest.py:128-129 | a stripped text is no longer than the original and neither starts nor ends with whitespace |
| Text.StripIsInnerRun | src/ingest.py:128-129 | a stripped text is a contiguous run of the original with only whitespace around it |
| Text.ContainsIgnoringCase | src/ingest.py:308 | searching the lowered text for a lower-case word finds it exactly where it occurs in any letter case |
| Text.JoinConcat | src/rag.py:215 | joining two non-empty lists is joining each, with one separator between |
| App.Truncate | src/app.py:73-75 | at most 303 characters are shown: content up to 300 characters unchanged; longer content as its first 300 characters and "..." |
| App.Label | src/app.py:77 | the label starts with the law name and is the name alone exactly when there is no article number; otherwise the name and " 第no條" |
| App.FormatSources | src/app.py:64-82 | the source panel is "未找到相關法條" for no sources; otherwise the entries "【i】label\ncontent", numbered from 1, joined by blank lines |
| App.SourcesTextShape | src/app.py:64-82 | the panel says "未找到相關法條" exactly when there are no sources, otherwise opens with entry 【1】, and is never empty |
| App.AnswerFor | src/app.py:50-89 | a blank question is refused with no sources; an initialisation error is shown with "❌ 錯誤: "; a failed query passes its answer through with no sources; a successful one comes with the formatted sources |
| App.SourcesShownIffQuerySucceeded | src/app.py:61-84 | the source panel is empty exactly when no query succeeded |
| App.InitStep | src/app.py:32-37 | a filled cache is returned with no service call; an empty cache runs `create_rag_chain`, is filled on success and stays empty when it raises |
| App.CacheSticks | src/app.py:34-35 | once filled, the cache never changes again |
| App.CachedChainReturned | src/app.py:32-37 | after one successful call, every later call returns the same chain and calls no service |
| App.EmptyIffAllFailed | src/app.py:32-37 | starting empty, the cache is still empty exactly when every call so far raised |
| App.ConstructorOnlyWhileEmpty | src/app.py:34-35 | a call probes or builds exactly when no earlier call has succeeded |
| App.RagApp.InitializeRagChain | src/app.py:23-37 | the cache, the returned chain or error, and the service calls are those of `InitStep` |
| App.RagApp.AnswerQuestion | src/app.py:40-89 | a blank question leaves the cache alone; any other question goes through the cache; the answer and sources are `AnswerFor` of the question and the initialisation result |

## Left out

- The text splitter (`RecursiveCharacterTextSplitter`, with overlap 200 and its separators) is library code. It is a parameter. Its validation of chunk size against overlap is not modelled.
- Embedding vectors, similarity search, `TOP_K` and the score threshold are not modelled. The retriever is a function from the question to documents or an error.
- The Qdrant and Ollama probes (`check_qdrant_connection`, `check_ollama_connection`) are booleans. The writes and model loads are outcomes.
- The prompt template, `ChatOllama` and the LangChain pipe composition are not modelled. The language model is a function of the rendered context and the question.
- Rag.QueryAnswer: both retrievals of one query are assumed to return the same documents. A store changed between them is not modelled.
- Chunking.PieceDocs: a splitter piece's metadata is exactly the law fields and the article number. This assumes the library's fresh documents carry no metadata of their own.
- The Gradio page, `create_web_ui`, `main` and every `print` are not modelled. None affects a returned value.
- The environment reading of `src/config.py` and its conversion of `QDRANT_PORT` to an integer are not modelled. The configuration is taken as given, with the port a natural number.
- File existence and JSON decoding are not modelled. The file is given as what reading it produced: missing, malformed, unreadable, or decoded laws. Values of the wrong JSON type (a non-string `ArticleNo`, a non-list `Laws`) are not modelled.
- Text.Lower: only ASCII letters are lowered. The only patterns searched ("connection", "refused", "not found") are ASCII, and no other character lowers into a match.
- Sharing the global cache between concurrent requests is not modelled. Calls are taken one after another.
- `DataIngestionError`, the base class, is never raised on its own and has no case of its own.
- The catch-all "❌ 發生錯誤" branch of `answer_question` cannot be reached. `create_rag_chain` wraps every failure in `RAGError`, and `query` turns every failure into a result.
- The "未知法律" default of `answer_question` never applies, because every source record carries a law name.
- The blank-question guard of `query` cannot be reached from the front end, which refuses blank questions first. `query` still models it.

## Notes on the code

- A write to Qdrant that fails for a reason other than a connection problem still raises `QdrantConnectionError`, so `ingest_documents` reports it as "qdrant" (`src/ingest.py:313`). No separate storage-error kind exists.
- A law whose `LawName` key is present but empty keeps the empty name; the "未知法律" default applies only when the key is absent.
- No step of ingestion raises `OllamaConnectionError`, so the "ollama" error type is never reported there.
- A model load failure raises a plain `Exception`, which ingestion reports as "unknown".
- `format_docs` (`src/rag.py:214`) and the source label (`src/app.py:77`) wrap the stored article number in "第" and "條", whatever it holds. `Rag.ContextBlock` and `App.Label` do the same. A stored number that already reads "第 1 條" would therefore be shown as "第第 1 條條".
