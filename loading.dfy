/**
 * `load_json_documents`: the statute file becomes one document per law, whose
 * page text lists the law's headings and qualifying articles line by line,
 * and whose metadata keeps the law's fields and its raw article list; and the
 * step of `ingest_documents` that rebuilds law records from that metadata
 * before they are split.
 *
 * File access and JSON decoding are not modelled: the file is given as what
 * reading it produced (`JsonSource`).
 */
module Loading {
  import opened Wrappers
  import opened Text
  import opened Sequences
  import opened Documents
  import opened Statutes
  import opened Chunking
  import opened IngestErrors

  /** What opening and decoding the statute file gave. */
  datatype JsonSource =
    | FileMissing                        // the path does not exist
    | Malformed(detail: string)          // `json.JSONDecodeError`
    | Unreadable(detail: string)         // any other exception while reading or walking the data
    | Parsed(laws: Option<seq<Law>>)     // the top-level object, with or without its "Laws" key

  /** One loaded law: its page text, its (defaulted) fields and its articles as found in the file. */
  datatype LawDocument = LawDocument(pageContent: string, info: LawInfo, articles: seq<Article>)

  /** The line an entry contributes to its law's page text, if any. */
  function ArticleLine(a: Article): seq<string> {
    if ArticleType(a) == HeadingKind then ["\n" + ArticleContent(a)]
    else if Qualifies(a) then [ChunkText(a)]
    else []
  }

  function PageLines(arts: seq<Article>): seq<string> {
    FlatMap(arts, ArticleLine)
  }

  /** The document `load_json_documents` makes of one law. */
  function LoadLaw(law: Law): LawDocument {
    LawDocument(Join("\n", PageLines(Articles(law))), Info(law), Articles(law))
  }

  function MissingFileMessage(path: string): string {
    "找不到檔案：" + path + "\n請檢查路徑是否正確。"
  }

  function MalformedMessage(detail: string): string {
    "JSON 格式錯誤：" + detail
  }

  function UnreadableMessage(detail: string): string {
    "無法讀取 JSON 檔案：" + detail
  }

  /** `data.get("Laws", [])` */
  function LawsOf(found: Option<seq<Law>>): seq<Law> {
    found.GetOr([])
  }

  /**
   * What `load_json_documents(json_path)` returns or raises: a missing,
   * malformed or unreadable file raises `JSONLoadError` with the matching
   * message; a decoded file gives one document per law, in file order.
   */
  function LoadResult(jsonPath: string, source: JsonSource): (r: Result<seq<LawDocument>, IngestError>)
    ensures r.Failure? <==> !source.Parsed?
    ensures r.Failure? ==> r.error.JsonLoad?
    ensures source.FileMissing? ==> r.error.message == MissingFileMessage(jsonPath)
    ensures source.Malformed? ==> r.error.message == MalformedMessage(source.detail)
    ensures source.Unreadable? ==> r.error.message == UnreadableMessage(source.detail)
    ensures source.Parsed? ==>
      && |r.value| == |LawsOf(source.laws)|
      && forall k :: 0 <= k < |r.value| ==> r.value[k] == LoadLaw(LawsOf(source.laws)[k])
  {
    match source
    case FileMissing => Failure(JsonLoad(MissingFileMessage(jsonPath)))
    case Malformed(detail) => Failure(JsonLoad(MalformedMessage(detail)))
    case Unreadable(detail) => Failure(JsonLoad(UnreadableMessage(detail)))
    case Parsed(found) => Success(LoadAll(LawsOf(found)))
  }

  /** The documents of a list of laws, one per law, in order. */
  function LoadAll(laws: seq<Law>): (r: seq<LawDocument>)
    ensures |r| == |laws|
    ensures forall k :: 0 <= k < |r| ==> r[k] == LoadLaw(laws[k])
  {
    if laws == [] then [] else LoadAll(laws[..|laws| - 1]) + [LoadLaw(laws[|laws| - 1])]
  }

  /** `load_json_documents(json_path)`: the loop over the laws of the decoded file. */
  method LoadJsonDocuments(jsonPath: string, source: JsonSource) returns (r: Result<seq<LawDocument>, IngestError>)
    ensures r == LoadResult(jsonPath, source)
  {
    match source
    case FileMissing =>
      return Failure(JsonLoad(MissingFileMessage(jsonPath)));
    case Malformed(detail) =>
      return Failure(JsonLoad(MalformedMessage(detail)));
    case Unreadable(detail) =>
      return Failure(JsonLoad(UnreadableMessage(detail)));
    case Parsed(found) =>
      var laws := LawsOf(found);
      var documents: seq<LawDocument> := [];
      var i := 0;
      while i < |laws|
        invariant 0 <= i <= |laws|
        invariant documents == LoadAll(laws[..i])
      {
        assert laws[..i + 1][..i] == laws[..i];
        var law := laws[i];
        var lines := PageContentLines(Articles(law));
        documents := documents + [LawDocument(Join("\n", lines), Info(law), Articles(law))];
        i := i + 1;
      }
      assert laws[..i] == laws;
      return Success(documents);
  }

  /** The article loop of `load_json_documents`: the page lines of one law. */
  method PageContentLines(articles: seq<Article>) returns (lines: seq<string>)
    ensures lines == PageLines(articles)
  {
    lines := [];
    var j := 0;
    while j < |articles|
      invariant 0 <= j <= |articles|
      invariant lines == PageLines(articles[..j])
    {
      FlatMapStep(articles, ArticleLine, j);
      var article := articles[j];
      if ArticleType(article) == HeadingKind {
        lines := lines + ["\n" + ArticleContent(article)];
      } else if ArticleType(article) == ArticleKind && ArticleContent(article) != "" {
        if ArticleNo(article) != "" {
          lines := lines + [ArticleNo(article) + "\n" + ArticleContent(article)];
        } else {
          lines := lines + [ArticleContent(article)];
        }
      }
      j := j + 1;
    }
    assert articles[..j] == articles;
  }

  /** The law record `ingest_documents` rebuilds from a loaded document's metadata. */
  function RebuildLaw(d: LawDocument): Law {
    Law(Some(d.info.name), Some(d.info.level), Some(d.info.category), Some(d.info.url),
        Some(d.info.modifiedDate), Some(d.articles))
  }

  /**
   * Loading then rebuilding keeps a law's name (already defaulted), level,
   * category, URL, date and original article list.
   */
  lemma RebuildRoundTrip(law: Law)
    ensures Info(RebuildLaw(LoadLaw(law))) == Info(law)
    ensures Articles(RebuildLaw(LoadLaw(law))) == Articles(law)
  {
  }

  /**
   * Splitting the laws rebuilt from the loaded documents gives exactly the
   * chunks of the laws as parsed from the file.
   */
  lemma RebuiltLawsSplitAlike(laws: seq<Law>, rebuilt: seq<Law>, chunkSize: int, splitter: string -> seq<string>)
    requires |rebuilt| == |laws|
    requires forall k :: 0 <= k < |laws| ==> rebuilt[k] == RebuildLaw(LoadLaw(laws[k]))
    ensures SplitLaws(rebuilt, chunkSize, splitter) == SplitLaws(laws, chunkSize, splitter)
  {
    forall k | 0 <= k < |laws|
      ensures LawChunker(chunkSize, splitter)(rebuilt[k]) == LawChunker(chunkSize, splitter)(laws[k])
    {
      RebuildRoundTrip(laws[k]);
    }
    FlatMapPointwise(rebuilt, LawChunker(chunkSize, splitter), laws, LawChunker(chunkSize, splitter));
  }

  predicate HasHeading(arts: seq<Article>) {
    exists j :: 0 <= j < |arts| && ArticleType(arts[j]) == HeadingKind
  }

  /** Without headings, the page lines of a run of articles are the texts of its chunks. */
  lemma {:induction false} LinesAreChunkTexts(info: LawInfo, arts: seq<Article>, chunkSize: int, splitter: string -> seq<string>)
    requires !HasHeading(arts) && ArticlesFit(arts, chunkSize)
    ensures PageLines(arts) == Texts(FlatMap(arts, ArticleChunker(info, chunkSize, splitter)))
  {
    if arts != [] {
      var front, last := arts[..|arts| - 1], arts[|arts| - 1];
      assert !HasHeading(front) && ArticlesFit(front, chunkSize) by {
        assert forall j :: 0 <= j < |front| ==> front[j] == arts[j];
      }
      LinesAreChunkTexts(info, front, chunkSize, splitter);
      var f := ArticleChunker(info, chunkSize, splitter);
      TextsConcat(FlatMap(front, f), f(last));
      assert ArticleType(last) != HeadingKind by {
        assert arts[|arts| - 1] == last;
      }
    }
  }

  /**
   * A law's page text is its per-entry lines joined by newlines; when the law
   * has no headings and no article exceeds the chunk size, those lines are
   * exactly its chunks' texts, in order.
   */
  lemma PageContentIsChunkTexts(law: Law, chunkSize: int, splitter: string -> seq<string>)
    requires !HasHeading(Articles(law)) && ArticlesFit(Articles(law), chunkSize)
    ensures LoadLaw(law).pageContent == Join("\n", Texts(LawChunks(law, chunkSize, splitter)))
  {
    LinesAreChunkTexts(Info(law), Articles(law), chunkSize, splitter);
  }

  function HeadingCount(arts: seq<Article>): nat {
    if arts == [] then 0
    else HeadingCount(arts[..|arts| - 1]) + (if ArticleType(arts[|arts| - 1]) == HeadingKind then 1 else 0)
  }

  /** Every heading and every qualifying article contributes one line; nothing else does. */
  lemma {:induction false} PageLineCount(arts: seq<Article>)
    ensures |PageLines(arts)| == HeadingCount(arts) + QualifyingCount(arts)
  {
    if arts != [] {
      PageLineCount(arts[..|arts| - 1]);
    }
  }

  /** A qualifying article's line on the page is the same text as its chunk. */
  lemma QualifyingLineIsChunkText(arts: seq<Article>, j: int)
    requires 0 <= j < |arts| && Qualifies(arts[j])
    ensures ChunkText(arts[j]) in PageLines(arts)
  {
    FlatMapConcat(arts[..j + 1], arts[j + 1..], ArticleLine);
    FlatMapStep(arts, ArticleLine, j);
    assert arts[..j + 1] + arts[j + 1..] == arts;
  }
}
