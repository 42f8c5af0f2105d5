/**
 * The configuration values (read from the environment in `config.py`) that
 * the modelled code puts into its reports and error messages.
 */
module Settings {
  import opened Text

  datatype Config = Config(
    qdrantHost: string,       // QDRANT_HOST
    qdrantPort: nat,          // QDRANT_PORT
    collectionName: string,   // QDRANT_COLLECTION
    embeddingModel: string,   // EMBEDDING_MODEL
    ollamaBaseUrl: string)    // OLLAMA_BASE_URL

  /** `QDRANT_URL`: `http://<host>:<port>`. */
  function QdrantUrl(cfg: Config): string {
    "http://" + cfg.qdrantHost + ":" + NatToString(cfg.qdrantPort)
  }
}
