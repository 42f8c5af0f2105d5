/**
 * The exceptions of the ingestion pipeline and how `ingest_documents` turns
 * each into the `error_type` of its failure report.
 */
module IngestErrors {

  /** `OllamaConnectionError`, `QdrantConnectionError`, `JSONLoadError`, and any other exception. */
  datatype IngestError =
    | OllamaConnection(message: string)
    | QdrantConnection(message: string)
    | JsonLoad(message: string)
    | Other(message: string)

  /** The `error_type` the `except` clauses of `ingest_documents` assign. */
  function ErrorType(e: IngestError): (r: string)
    ensures r in {"ollama", "qdrant", "json", "unknown"}
  {
    match e
    case OllamaConnection(_) => "ollama"
    case QdrantConnection(_) => "qdrant"
    case JsonLoad(_) => "json"
    case Other(_) => "unknown"
  }

  /**
   * The error type names the exception kind and nothing else: two errors get
   * the same type exactly when they are of the same kind, and "unknown" is
   * left for the exceptions of no ingestion kind.
   */
  lemma ErrorTypeIdentifiesKind(e1: IngestError, e2: IngestError)
    ensures ErrorType(e1) == ErrorType(e2) <==>
      (e1.OllamaConnection? && e2.OllamaConnection?) ||
      (e1.QdrantConnection? && e2.QdrantConnection?) ||
      (e1.JsonLoad? && e2.JsonLoad?) ||
      (e1.Other? && e2.Other?)
    ensures ErrorType(e1) == "unknown" <==> e1.Other?
  {
  }
}
