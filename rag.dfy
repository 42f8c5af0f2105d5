/**
 * The question-answering side: `create_rag_chain` (service checks, then the
 * build, with its error wrapping), its inner `format_docs` (the context block
 * handed to the language model), and `query` (the blank-question guard, the
 * source records and the conversion of failures into results).
 *
 * The services are external. The Ollama and Qdrant probes are booleans; the
 * build of embeddings, vector store, retriever and model is a result; the
 * retriever and the language model of a built chain are functions. The
 * prompt is fixed text, so the model is given the context and the question.
 */
module Rag {
  import opened Wrappers
  import opened Text
  import opened Documents
  import opened Statutes
  import opened Chunking
  import opened Settings

  /** `RAGError` and its two connection subclasses. */
  datatype RagError =
    | OllamaUnreachable(message: string)
    | QdrantUnreachable(message: string)
    | InitFailed(message: string)

  /** A call `create_rag_chain` makes to the outside world. */
  datatype Step = CheckOllama | CheckQdrant | Build

  /** The services one environment offers to `create_rag_chain`. */
  datatype Env<B> = Env(ollamaUp: bool, qdrantUp: bool, build: Result<B, string>)

  /** What a call to `create_rag_chain` returned or raised, and the calls it made. */
  datatype Attempt<B> = Attempt(result: Result<B, RagError>, steps: seq<Step>)

  function OllamaUnreachableMessage(cfg: Config): string {
    "無法連接 Ollama 服務（" + cfg.ollamaBaseUrl + "）\n請確認 Ollama 是否正在運行"
  }

  function QdrantUnreachableMessage(cfg: Config): string {
    "無法連接 Qdrant 服務（" + cfg.qdrantHost + ":" + NatToString(cfg.qdrantPort) + "）\n請確認 Qdrant 是否正在運行"
  }

  const InitFailedPrefix: string := "初始化 RAG 系統失敗: "

  predicate IsConnectionError(e: RagError) {
    e.OllamaUnreachable? || e.QdrantUnreachable?
  }

  /** `xs` is a leading part of `ys`. */
  predicate IsPrefix(xs: seq<Step>, ys: seq<Step>) {
    |xs| <= |ys| && ys[..|xs|] == xs
  }

  /**
   * `create_rag_chain()`. Ollama is probed first, Qdrant only when Ollama
   * answers, and the chain is built only when both answer. A failed probe
   * raises its connection error unchanged; any failure of the build is
   * wrapped in a `RAGError` whose message carries the original one.
   */
  function CreateRagChain<B>(cfg: Config, env: Env<B>): (r: Attempt<B>)
    ensures IsPrefix(r.steps, [CheckOllama, CheckQdrant, Build]) && |r.steps| >= 1
    ensures CheckQdrant in r.steps <==> env.ollamaUp
    ensures Build in r.steps <==> env.ollamaUp && env.qdrantUp
    ensures r.result.Success? <==> env.ollamaUp && env.qdrantUp && env.build.Success?
    ensures r.result.Success? ==> r.result.value == env.build.value
    ensures !env.ollamaUp ==> r.result == Failure(OllamaUnreachable(OllamaUnreachableMessage(cfg)))
    ensures env.ollamaUp && !env.qdrantUp ==> r.result == Failure(QdrantUnreachable(QdrantUnreachableMessage(cfg)))
    ensures r.result.Failure? ==> (IsConnectionError(r.result.error) <==> !(env.ollamaUp && env.qdrantUp))
    ensures r.result.Failure? && !IsConnectionError(r.result.error) ==>
      r.result.error == InitFailed(InitFailedPrefix + env.build.error)
  {
    if !env.ollamaUp then
      Attempt(Failure(OllamaUnreachable(OllamaUnreachableMessage(cfg))), [CheckOllama])
    else if !env.qdrantUp then
      Attempt(Failure(QdrantUnreachable(QdrantUnreachableMessage(cfg))), [CheckOllama, CheckQdrant])
    else match env.build
      case Success(chain) => Attempt(Success(chain), [CheckOllama, CheckQdrant, Build])
      case Failure(message) => Attempt(Failure(InitFailed(InitFailedPrefix + message)), [CheckOllama, CheckQdrant, Build])
  }

  /** The built chain: its retriever and its language model (given the context and the question). */
  datatype RagChain = RagChain(
    retriever: string -> Result<seq<Doc>, string>,
    llm: (string, string) -> Result<string, string>)

  const UnknownArticle: string := "未知條文"

  /** How `format_docs` renders one retrieved document. */
  function ContextBlock(d: Doc): string {
    "【" + Get(d.metadata, "law_name", UnknownLaw) + " 第" + Get(d.metadata, "article_no", UnknownArticle) + "條】\n"
      + d.pageContent
  }

  function ContextBlocks(docs: seq<Doc>): (r: seq<string>)
    ensures |r| == |docs|
  {
    seq(|docs|, k requires 0 <= k < |docs| => ContextBlock(docs[k]))
  }

  /** The context text the language model is given for the retrieved documents. */
  function Context(docs: seq<Doc>): string {
    Join("\n\n", ContextBlocks(docs))
  }

  /** `format_docs(docs)`: the rendered documents, in retrieval order, separated by blank lines. */
  method FormatDocs(docs: seq<Doc>) returns (text: string)
    ensures text == Context(docs)
  {
    var formatted: seq<string> := [];
    for k := 0 to |docs|
      invariant formatted == ContextBlocks(docs[..k])
    {
      var metadata := docs[k].metadata;
      var lawName := Get(metadata, "law_name", UnknownLaw);
      var articleNo := Get(metadata, "article_no", UnknownArticle);
      formatted := formatted + ["【" + lawName + " 第" + articleNo + "條】\n" + docs[k].pageContent];
    }
    assert docs[..|docs|] == docs;
    text := Join("\n\n", formatted);
  }

  /** No documents give an empty context; one document gives its block alone. */
  lemma ContextOfFew(d: Doc)
    ensures Context([]) == ""
    ensures Context([d]) == ContextBlock(d)
  {
  }

  /** Rendering keeps retrieval order: two runs of documents are rendered apart by one blank line. */
  lemma ContextConcat(xs: seq<Doc>, ys: seq<Doc>)
    requires xs != [] && ys != []
    ensures Context(xs + ys) == Context(xs) + "\n\n" + Context(ys)
  {
    assert ContextBlocks(xs + ys) == ContextBlocks(xs) + ContextBlocks(ys);
    JoinConcat("\n\n", ContextBlocks(xs), ContextBlocks(ys));
  }

  /**
   * The defaults of `format_docs` never show for chunks made by ingestion:
   * a chunk's block names the law and article number it was cut from.
   */
  lemma ChunkContextBlock(laws: seq<Law>, chunkSize: int, splitter: string -> seq<string>, c: Doc)
    requires c in SplitLaws(laws, chunkSize, splitter)
    ensures exists i, j ::
              && 0 <= i < |laws| && 0 <= j < |Articles(laws[i])|
              && ContextBlock(c) == "【" + Info(laws[i]).name + " 第" + ArticleNo(Articles(laws[i])[j]) + "條】\n" + c.pageContent
  {
    ChunkProvenance(laws, chunkSize, splitter, c);
  }

  /** A source record of a query result. */
  datatype Source = Source(lawName: string, articleNo: string, content: string, score: real, url: string)

  /** How `query` reports one retrieved document. */
  function ProjectSource(d: Doc): Source {
    Source(Get(d.metadata, "law_name", ""), Get(d.metadata, "article_no", ""), d.pageContent, 0.0,
           Get(d.metadata, "law_url", ""))
  }

  /**
   * For a chunk made by ingestion, the source record names the chunk's law,
   * article number and law URL, holds the chunk text verbatim and scores 0.
   */
  lemma ChunkSource(laws: seq<Law>, chunkSize: int, splitter: string -> seq<string>, c: Doc)
    requires c in SplitLaws(laws, chunkSize, splitter)
    ensures exists i, j ::
              && 0 <= i < |laws| && 0 <= j < |Articles(laws[i])|
              && ProjectSource(c) == Source(Info(laws[i]).name, ArticleNo(Articles(laws[i])[j]), c.pageContent, 0.0,
                                            Info(laws[i]).url)
  {
    ChunkProvenance(laws, chunkSize, splitter, c);
  }

  /** The dictionary `query` returns. */
  datatype QueryResult = QueryResult(answer: string, sources: seq<Source>, success: bool)

  /** A call `query` makes to the built chain. */
  datatype Call = Retrieve | Generate

  const EmptyQuestionAnswer: string := "請輸入問題"
  const QueryErrorPrefix: string := "查詢時發生錯誤: "

  function Sources(docs: seq<Doc>): (r: seq<Source>)
    ensures |r| == |docs|
  {
    seq(|docs|, k requires 0 <= k < |docs| => ProjectSource(docs[k]))
  }

  /**
   * What `query(question, chain)` returns. The chain retrieves for the
   * question (once for the sources and once more inside the chain, with the
   * same result) and asks the language model with the rendered context.
   */
  function QueryAnswer(question: string, chain: RagChain): (r: QueryResult)
    ensures IsBlank(question) ==> r == QueryResult(EmptyQuestionAnswer, [], false)
    ensures !IsBlank(question) && chain.retriever(question).Failure? ==>
      r == QueryResult(QueryErrorPrefix + chain.retriever(question).error, [], false)
    ensures !IsBlank(question) && chain.retriever(question).Success? ==>
      var docs := chain.retriever(question).value;
      var generated := chain.llm(Context(docs), question);
      && (generated.Failure? ==> r == QueryResult(QueryErrorPrefix + generated.error, [], false))
      && (generated.Success? ==> r.answer == generated.value && r.success)
      && (generated.Success? ==> |r.sources| == |docs| && forall k :: 0 <= k < |docs| ==> r.sources[k] == ProjectSource(docs[k]))
    ensures !r.success ==> r.sources == []
  {
    if IsBlank(question) then QueryResult(EmptyQuestionAnswer, [], false)
    else match chain.retriever(question)
      case Failure(e) => QueryResult(QueryErrorPrefix + e, [], false)
      case Success(docs) =>
        match chain.llm(Context(docs), question)
        case Failure(e) => QueryResult(QueryErrorPrefix + e, [], false)
        case Success(answer) => QueryResult(answer, Sources(docs), true)
  }

  /** A query succeeds exactly when the question has text and both retrieval and generation succeed. */
  lemma QuerySuccess(question: string, chain: RagChain)
    ensures QueryAnswer(question, chain).success <==>
      && !IsBlank(question)
      && chain.retriever(question).Success?
      && chain.llm(Context(chain.retriever(question).value), question).Success?
  {
  }

  /** Every failed query answers with the fixed prompt or with the error prefix. */
  lemma FailedQueryAnswer(question: string, chain: RagChain)
    requires !QueryAnswer(question, chain).success
    ensures var a := QueryAnswer(question, chain).answer;
      a == EmptyQuestionAnswer
      || (|a| >= |QueryErrorPrefix| && a[..|QueryErrorPrefix|] == QueryErrorPrefix)
  {
  }

  /**
   * `query(question, rag_chain_dict)`: the method that walks the retrieved
   * documents; it returns `QueryAnswer` and makes no call to the chain for a
   * blank question, one retrieval when retrieval fails, and otherwise the
   * retrieval and then the chain's own retrieval and generation.
   */
  method Query(question: string, chain: RagChain) returns (result: QueryResult, calls: seq<Call>)
    ensures result == QueryAnswer(question, chain)
    ensures IsBlank(question) ==> calls == []
    ensures !IsBlank(question) && chain.retriever(question).Failure? ==> calls == [Retrieve]
    ensures !IsBlank(question) && chain.retriever(question).Success? ==> calls == [Retrieve, Retrieve, Generate]
  {
    if question == [] || Strip(question) == [] {
      return QueryResult(EmptyQuestionAnswer, [], false), [];
    }
    var retrieved := chain.retriever(question);
    calls := [Retrieve];
    if retrieved.Failure? {
      return QueryResult(QueryErrorPrefix + retrieved.error, [], false), calls;
    }
    var docs := retrieved.value;

    var context := FormatDocs(chain.retriever(question).value);
    var generated := chain.llm(context, question);
    calls := calls + [Retrieve, Generate];
    if generated.Failure? {
      return QueryResult(QueryErrorPrefix + generated.error, [], false), calls;
    }

    var sources: seq<Source> := [];
    for k := 0 to |docs|
      invariant sources == Sources(docs[..k])
    {
      var metadata := docs[k].metadata;
      sources := sources + [Source(Get(metadata, "law_name", ""), Get(metadata, "article_no", ""),
                                   docs[k].pageContent, 0.0, Get(metadata, "law_url", ""))];
    }
    assert docs[..|docs|] == docs;
    result := QueryResult(generated.value, sources, true);
  }
}
