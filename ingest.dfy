/**
 * `ingest_documents`, the four-stage pipeline (load the statute file, split
 * it, load the embedding model, write the chunks to Qdrant), and the failure
 * messages of `create_embeddings` and `store_documents_in_qdrant`.
 *
 * The embedding model, the Qdrant reachability probe and the Qdrant write are
 * external: each is a parameter saying how that call went.
 */
module Ingest {
  import opened Wrappers
  import opened Text
  import opened Documents
  import opened Statutes
  import opened Chunking
  import opened IngestErrors
  import opened Loading
  import opened Settings

  /** The statute file under the project root: `os.path.join(root, "data", "chlaw.json", "ChLaw.json")`. */
  const DefaultDataFile: string := "data/chlaw.json/ChLaw.json"

  /**
   * The file `ingest_documents` reads: the path it is given, or else the
   * default file joined to the project root the way `os.path.join` joins,
   * with one "/" between them unless the root is empty or already ends in one.
   */
  function JsonPath(jsonPath: Option<string>, projectRoot: string): (r: string)
    ensures jsonPath.Some? ==> r == jsonPath.value
    ensures jsonPath.None? ==>
      && |r| >= |projectRoot| + |DefaultDataFile|
      && r[..|projectRoot|] == projectRoot
      && r[|r| - |DefaultDataFile|..] == DefaultDataFile
    ensures jsonPath.None? && (projectRoot == [] || projectRoot[|projectRoot| - 1] == '/') ==>
      r == projectRoot + DefaultDataFile
    ensures jsonPath.None? && projectRoot != [] && projectRoot[|projectRoot| - 1] != '/' ==>
      r == projectRoot + "/" + DefaultDataFile
  {
    match jsonPath
    case Some(p) => p
    case None =>
      if projectRoot == [] || projectRoot[|projectRoot| - 1] == '/' then projectRoot + DefaultDataFile
      else projectRoot + "/" + DefaultDataFile
  }

  /** The error text a failed store is classified by: it mentions a connection or a refusal, in any case. */
  predicate IsConnectionMessage(message: string) {
    Contains(Lower(message), "connection") || Contains(Lower(message), "refused")
  }

  /** The classification is a case-insensitive search for either word. */
  lemma ConnectionMessageSearch(message: string)
    ensures IsConnectionMessage(message) <==>
      (exists i :: OccursAnyCaseAt(message, "connection", i)) || (exists i :: OccursAnyCaseAt(message, "refused", i))
  {
    ContainsIgnoringCase(message, "connection");
    ContainsIgnoringCase(message, "refused");
  }

  /** The error text of a failed model load that says the model is missing. */
  predicate IsModelNotFoundMessage(message: string) {
    Contains(message, "404") || Contains(Lower(message), "not found")
  }

  function UnreachableQdrantMessage(qdrantUrl: string): string {
    "無法連接 Qdrant 服務（" + qdrantUrl + "）\n請確認 Qdrant 容器是否運行：docker-compose up -d\n或檢查 QDRANT_URL 環境變數設定是否正確。"
  }

  /**
   * `store_documents_in_qdrant`: nothing is raised when Qdrant answers the
   * probe and the write succeeds. Every failure is a Qdrant connection error:
   * an unreachable server, a write failure that mentions a connection or a
   * refusal, and any other write failure, each with its own message.
   */
  function StoreInQdrant(qdrantUrl: string, reachable: bool, write: Outcome): (r: Option<IngestError>)
    ensures r.None? <==> reachable && write.Pass?
    ensures r.Some? ==> r.value.QdrantConnection?
    ensures !reachable ==> r == Some(QdrantConnection(UnreachableQdrantMessage(qdrantUrl)))
    ensures reachable && write.Fail? && IsConnectionMessage(write.detail) ==>
      r == Some(QdrantConnection("Qdrant 連線失敗：" + write.detail + "\n請確認 Qdrant 服務是否正常運行。"))
    ensures reachable && write.Fail? && !IsConnectionMessage(write.detail) ==>
      r == Some(QdrantConnection("儲存至 Qdrant 失敗：" + write.detail))
  {
    if !reachable then Some(QdrantConnection(UnreachableQdrantMessage(qdrantUrl)))
    else match write
      case Pass => None
      case Fail(detail) =>
        if IsConnectionMessage(detail) then
          Some(QdrantConnection("Qdrant 連線失敗：" + detail + "\n請確認 Qdrant 服務是否正常運行。"))
        else
          Some(QdrantConnection("儲存至 Qdrant 失敗：" + detail))
  }

  /**
   * `create_embeddings`: a failed model load raises a plain exception (not an
   * ingestion kind), worded as a missing model when the library's message
   * contains "404" or, in any case, "not found".
   */
  function LoadEmbeddings(model: string, load: Outcome): (r: Option<IngestError>)
    ensures r.None? <==> load.Pass?
    ensures r.Some? ==> r.value.Other?
    ensures load.Fail? && IsModelNotFoundMessage(load.detail) ==>
      r == Some(Other("模型 " + model + " 未找到或無法下載\n錯誤：" + load.detail + "\n請確保網路連接正常，或使用其他可用的 HuggingFace 模型"))
    ensures load.Fail? && !IsModelNotFoundMessage(load.detail) ==> r == Some(Other("模型載入失敗：" + load.detail))
  {
    match load
    case Pass => None
    case Fail(detail) =>
      if IsModelNotFoundMessage(detail) then
        Some(Other("模型 " + model + " 未找到或無法下載\n錯誤：" + detail + "\n請確保網路連接正常，或使用其他可用的 HuggingFace 模型"))
      else Some(Other("模型載入失敗：" + detail))
  }

  /** `t` is a contiguous part of `s + t + u`. */
  lemma ContainsMiddle(s: string, t: string, u: string)
    ensures Contains(s + t + u, t)
  {
    var w := s + t + u;
    assert w[|s|..|s| + |t|] == t;
    assert OccursAt(w, t, |s|);
    ContainsIffOccurs(w, t);
  }

  /** A failed write's own error text is kept inside the message it is reported with. */
  lemma StoreMessageKeepsDetail(qdrantUrl: string, detail: string)
    ensures Contains(StoreInQdrant(qdrantUrl, true, Fail(detail)).value.message, detail)
  {
    if IsConnectionMessage(detail) {
      ContainsMiddle("Qdrant 連線失敗：", detail, "\n請確認 Qdrant 服務是否正常運行。");
    } else {
      ContainsMiddle("儲存至 Qdrant 失敗：", detail, "");
      assert "儲存至 Qdrant 失敗：" + detail + "" == "儲存至 Qdrant 失敗：" + detail;
    }
  }

  /** A failed model load's own error text is kept inside the message it is reported with. */
  lemma EmbeddingMessageKeepsDetail(model: string, detail: string)
    ensures Contains(LoadEmbeddings(model, Fail(detail)).value.message, detail)
  {
    if IsModelNotFoundMessage(detail) {
      ContainsMiddle("模型 " + model + " 未找到或無法下載\n錯誤：", detail,
                     "\n請確保網路連接正常，或使用其他可用的 HuggingFace 模型");
    } else {
      ContainsMiddle("模型載入失敗：", detail, "");
      assert "模型載入失敗：" + detail + "" == "模型載入失敗：" + detail;
    }
  }

  /** The dictionary `ingest_documents` returns. */
  datatype IngestReport =
    | Ingested(totalLaws: nat, totalChunks: nat, collectionName: string, embeddingModel: string)
    | IngestFailed(error: string, errorType: string)

  /** The report of a pipeline stopped by `e`. */
  function Failed(e: IngestError): IngestReport {
    IngestFailed(e.message, ErrorType(e))
  }

  /** The process exit status of the ingestion script. */
  function ExitCode(report: IngestReport): (code: int)
    ensures code == 0 <==> report.Ingested?
    ensures code == 0 || code == 1
  {
    if report.Ingested? then 0 else 1
  }

  /** The rebuild loop of `ingest_documents`: one law record per loaded document. */
  method RebuildLaws(documents: seq<LawDocument>) returns (laws: seq<Law>)
    ensures |laws| == |documents|
    ensures forall k :: 0 <= k < |laws| ==> laws[k] == RebuildLaw(documents[k])
  {
    laws := [];
    for k := 0 to |documents|
      invariant |laws| == k
      invariant forall m :: 0 <= m < k ==> laws[m] == RebuildLaw(documents[m])
    {
      laws := laws + [RebuildLaw(documents[k])];
    }
  }

  /**
   * The report of the last two stages of `ingest_documents`, once the file
   * has given `totalLaws` laws and `chunks`: a model that cannot be loaded
   * stops the pipeline with its own error, then an unreachable or failing
   * Qdrant with its error; otherwise the counts are reported.
   */
  function StoreStages(cfg: Config, totalLaws: nat, chunks: seq<Doc>, embedding: Outcome,
                       qdrantReachable: bool, written: Outcome): (report: IngestReport)
    ensures embedding.Fail? ==> report == Failed(LoadEmbeddings(cfg.embeddingModel, embedding).value)
    ensures embedding.Pass? && !(qdrantReachable && written.Pass?) ==>
      report == Failed(StoreInQdrant(QdrantUrl(cfg), qdrantReachable, written).value)
    ensures report.Ingested? <==> embedding.Pass? && qdrantReachable && written.Pass?
    ensures report.Ingested? ==> report == Ingested(totalLaws, |chunks|, cfg.collectionName, cfg.embeddingModel)
  {
    var embeddingError := LoadEmbeddings(cfg.embeddingModel, embedding);
    if embeddingError.Some? then Failed(embeddingError.value)
    else
      var storeError := StoreInQdrant(QdrantUrl(cfg), qdrantReachable, written);
      if storeError.Some? then Failed(storeError.value)
      else Ingested(totalLaws, |chunks|, cfg.collectionName, cfg.embeddingModel)
  }

  /** A model that cannot be loaded is reported as "unknown"; a Qdrant failure after it as "qdrant". */
  lemma StoreStagesErrorTypes(cfg: Config, totalLaws: nat, chunks: seq<Doc>, embedding: Outcome,
                              qdrantReachable: bool, written: Outcome)
    ensures var report := StoreStages(cfg, totalLaws, chunks, embedding, qdrantReachable, written);
      && (embedding.Fail? ==> report.IngestFailed? && report.errorType == "unknown")
      && (embedding.Pass? && !(qdrantReachable && written.Pass?) ==>
            report.IngestFailed? && report.errorType == "qdrant")
  {
  }

  /**
   * What `ingest_documents` reports for the statute file found at `jsonPath`:
   * a file that cannot be loaded stops the pipeline with a "json" failure;
   * past that, the later stages decide, and what they write is exactly the
   * chunks of the parsed laws at the default chunk size. No stage raises the
   * Ollama error kind.
   */
  function IngestOutcome(cfg: Config, jsonPath: string, source: JsonSource, embedding: Outcome,
                         qdrantReachable: bool, write: seq<Doc> -> Outcome, splitter: string -> seq<string>)
    : (report: IngestReport)
    ensures !source.Parsed? ==> report == Failed(LoadResult(jsonPath, source).error) && report.errorType == "json"
    ensures source.Parsed? ==>
      var laws := LawsOf(source.laws);
      var chunks := SplitLaws(laws, DefaultChunkSize, splitter);
      report == StoreStages(cfg, |laws|, chunks, embedding, qdrantReachable, write(chunks))
    ensures report.IngestFailed? ==> report.errorType in {"json", "unknown", "qdrant"}
  {
    match LoadResult(jsonPath, source)
    case Failure(e) => Failed(e)
    case Success(documents) =>
      var chunks := SplitLaws(LawsOf(source.laws), DefaultChunkSize, splitter);
      StoreStagesErrorTypes(cfg, |documents|, chunks, embedding, qdrantReachable, write(chunks));
      StoreStages(cfg, |documents|, chunks, embedding, qdrantReachable, write(chunks))
  }

  /**
   * `ingest_documents(json_path)`: load, rebuild the law records, split,
   * load the model, store; the report is `IngestOutcome`.
   */
  method IngestDocuments(cfg: Config, jsonPath: Option<string>, projectRoot: string, source: JsonSource,
                         embedding: Outcome, qdrantReachable: bool, write: seq<Doc> -> Outcome,
                         splitter: string -> seq<string>)
    returns (report: IngestReport)
    ensures report == IngestOutcome(cfg, JsonPath(jsonPath, projectRoot), source, embedding, qdrantReachable, write, splitter)
  {
    var path := JsonPath(jsonPath, projectRoot);
    var loaded := LoadJsonDocuments(path, source);
    if loaded.Failure? {
      return Failed(loaded.error);
    }
    var documents := loaded.value;
    var totalLaws := |documents|;

    var laws := RebuildLaws(documents);
    RebuiltLawsSplitAlike(LawsOf(source.laws), laws, DefaultChunkSize, splitter);
    var splits := SplitDocuments(laws, DefaultChunkSize, splitter);
    var totalChunks := |splits|;

    var embeddingError := LoadEmbeddings(cfg.embeddingModel, embedding);
    if embeddingError.Some? {
      return Failed(embeddingError.value);
    }

    var storeError := StoreInQdrant(QdrantUrl(cfg), qdrantReachable, write(splits));
    if storeError.Some? {
      return Failed(storeError.value);
    }

    report := Ingested(totalLaws, totalChunks, cfg.collectionName, cfg.embeddingModel);
  }
}
