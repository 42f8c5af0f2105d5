/**
 * Statute flattening (`split_documents`): every substantive article with text
 * becomes one chunk tagged with its law's fields and its own number; an
 * article text longer than the chunk size is handed to the library text
 * splitter instead, and each piece it returns gets the same tags.
 *
 * The splitter (LangChain's RecursiveCharacterTextSplitter with overlap 200
 * and separators "\n\n", "\n", "。", " ", "") is library code; here it is the
 * parameter `splitter`, a function from a text to its pieces.
 */
module Chunking {
  import opened Text
  import opened Sequences
  import opened Documents
  import opened Statutes

  /** The `chunk_size` the only caller uses. */
  const DefaultChunkSize: int := 1000

  /** The metadata dictionary of every chunk cut from article `a` of a law with fields `info`. */
  function ChunkMetadata(info: LawInfo, a: Article): map<string, string> {
    map[
      "law_name" := info.name,
      "law_level" := info.level,
      "law_category" := info.category,
      "law_url" := info.url,
      "modified_date" := info.modifiedDate,
      "article_no" := ArticleNo(a)]
  }

  /** The splitter's pieces, each a document carrying `metadata`. */
  function PieceDocs(pieces: seq<string>, metadata: map<string, string>): (r: seq<Doc>)
    ensures |r| == |pieces|
    ensures forall k :: 0 <= k < |r| ==> r[k] == Doc(pieces[k], metadata)
  {
    if pieces == [] then []
    else PieceDocs(pieces[..|pieces| - 1], metadata) + [Doc(pieces[|pieces| - 1], metadata)]
  }

  /** The chunks one article contributes. */
  function ArticleChunks(info: LawInfo, a: Article, chunkSize: int, splitter: string -> seq<string>): seq<Doc> {
    if !Qualifies(a) then []
    else if |ChunkText(a)| > chunkSize then PieceDocs(splitter(ChunkText(a)), ChunkMetadata(info, a))
    else [Doc(ChunkText(a), ChunkMetadata(info, a))]
  }

  /** Article `a` of a law with fields `info` to its chunks. */
  function ArticleChunker(info: LawInfo, chunkSize: int, splitter: string -> seq<string>): Article -> seq<Doc> {
    a => ArticleChunks(info, a, chunkSize, splitter)
  }

  /** The chunks of a law, in article order. */
  function LawChunks(law: Law, chunkSize: int, splitter: string -> seq<string>): seq<Doc> {
    FlatMap(Articles(law), ArticleChunker(Info(law), chunkSize, splitter))
  }

  function LawChunker(chunkSize: int, splitter: string -> seq<string>): Law -> seq<Doc> {
    law => LawChunks(law, chunkSize, splitter)
  }

  /** The chunks of a list of laws: law by law, and article by article within a law. */
  function SplitLaws(laws: seq<Law>, chunkSize: int, splitter: string -> seq<string>): seq<Doc> {
    FlatMap(laws, LawChunker(chunkSize, splitter))
  }

  /** `split_documents(laws, chunk_size)`: the loop over laws. */
  method SplitDocuments(laws: seq<Law>, chunkSize: int, splitter: string -> seq<string>) returns (splits: seq<Doc>)
    ensures splits == SplitLaws(laws, chunkSize, splitter)
  {
    splits := [];
    var i := 0;
    while i < |laws|
      invariant 0 <= i <= |laws|
      invariant splits == SplitLaws(laws[..i], chunkSize, splitter)
    {
      FlatMapStep(laws, LawChunker(chunkSize, splitter), i);
      splits := AppendArticles(splits, Info(laws[i]), Articles(laws[i]), chunkSize, splitter);
      i := i + 1;
    }
    assert laws[..i] == laws;
  }

  /** The body of the law loop of `split_documents`: the loop over one law's articles. */
  method AppendArticles(splits: seq<Doc>, info: LawInfo, articles: seq<Article>, chunkSize: int,
                        splitter: string -> seq<string>) returns (splits': seq<Doc>)
    ensures splits' == splits + FlatMap(articles, ArticleChunker(info, chunkSize, splitter))
  {
    ghost var chunker := ArticleChunker(info, chunkSize, splitter);
    splits' := splits;
    var j := 0;
    while j < |articles|
      invariant 0 <= j <= |articles|
      invariant splits' == splits + FlatMap(articles[..j], chunker)
    {
      FlatMapStep(articles, chunker, j);
      splits' := AppendArticle(splits', info, articles[j], chunkSize, splitter);
      AppendAssoc(splits, FlatMap(articles[..j], chunker), chunker(articles[j]));
      j := j + 1;
    }
    assert articles[..j] == articles;
  }

  /** The body of the article loop of `split_documents`: append what one article yields. */
  method AppendArticle(splits: seq<Doc>, info: LawInfo, article: Article, chunkSize: int,
                       splitter: string -> seq<string>) returns (splits': seq<Doc>)
    ensures splits' == splits + ArticleChunker(info, chunkSize, splitter)(article)
  {
    splits' := splits;
    if ArticleType(article) != ArticleKind || ArticleContent(article) == "" {
      assert !Qualifies(article);
      return;
    }
    assert Qualifies(article);
    var chunkText := ChunkText(article);
    var metadata := ChunkMetadata(info, article);
    if |chunkText| > chunkSize {
      var pieces := splitter(chunkText);
      var k := 0;
      while k < |pieces|
        invariant 0 <= k <= |pieces|
        invariant splits' == splits + PieceDocs(pieces[..k], metadata)
      {
        assert pieces[..k + 1][..k] == pieces[..k];
        splits' := splits' + [Doc(pieces[k], metadata)];
        k := k + 1;
      }
      assert pieces[..k] == pieces;
      assert ArticleChunks(info, article, chunkSize, splitter) == PieceDocs(pieces, metadata);
    } else {
      splits' := splits' + [Doc(chunkText, metadata)];
      assert ArticleChunks(info, article, chunkSize, splitter) == [Doc(chunkText, metadata)];
    }
  }

  /** Chunk `c` was cut from article `a` of a law with fields `info`. */
  predicate FromArticle(c: Doc, info: LawInfo, a: Article, chunkSize: int, splitter: string -> seq<string>) {
    && Qualifies(a)
    && c.metadata == ChunkMetadata(info, a)
    && (if |ChunkText(a)| > chunkSize then c.pageContent in splitter(ChunkText(a))
        else c.pageContent == ChunkText(a))
  }

  /**
   * Every chunk comes from a substantive ("A") article whose stripped content
   * is not empty, carries exactly that article's law fields and number, and
   * holds the article's text (or one of the splitter's pieces of it).
   */
  lemma ChunkProvenance(laws: seq<Law>, chunkSize: int, splitter: string -> seq<string>, c: Doc)
    requires c in SplitLaws(laws, chunkSize, splitter)
    ensures exists i, j ::
              && 0 <= i < |laws| && 0 <= j < |Articles(laws[i])|
              && FromArticle(c, Info(laws[i]), Articles(laws[i])[j], chunkSize, splitter)
  {
    FlatMapMember(laws, LawChunker(chunkSize, splitter), c);
    var i :| 0 <= i < |laws| && c in LawChunks(laws[i], chunkSize, splitter);
    var arts := Articles(laws[i]);
    FlatMapMember(arts, ArticleChunker(Info(laws[i]), chunkSize, splitter), c);
    var j :| 0 <= j < |arts| && c in ArticleChunks(Info(laws[i]), arts[j], chunkSize, splitter);
    assert FromArticle(c, Info(laws[i]), Articles(laws[i])[j], chunkSize, splitter);
  }

  /** Chunks keep law order: splitting two lists of laws is splitting each and concatenating. */
  lemma SplitLawsConcat(xs: seq<Law>, ys: seq<Law>, chunkSize: int, splitter: string -> seq<string>)
    ensures SplitLaws(xs + ys, chunkSize, splitter) == SplitLaws(xs, chunkSize, splitter) + SplitLaws(ys, chunkSize, splitter)
  {
    FlatMapConcat(xs, ys, LawChunker(chunkSize, splitter));
  }

  /** Within a law, chunks keep article order. */
  lemma LawChunksConcat(law: Law, xs: seq<Article>, ys: seq<Article>, chunkSize: int, splitter: string -> seq<string>)
    requires Articles(law) == xs + ys
    ensures LawChunks(law, chunkSize, splitter)
      == FlatMap(xs, ArticleChunker(Info(law), chunkSize, splitter)) + FlatMap(ys, ArticleChunker(Info(law), chunkSize, splitter))
  {
    FlatMapConcat(xs, ys, ArticleChunker(Info(law), chunkSize, splitter));
  }

  /** How many articles of a run qualify for indexing. */
  function QualifyingCount(arts: seq<Article>): nat {
    if arts == [] then 0
    else QualifyingCount(arts[..|arts| - 1]) + (if Qualifies(arts[|arts| - 1]) then 1 else 0)
  }

  function LawsQualifyingCount(laws: seq<Law>): nat {
    if laws == [] then 0
    else LawsQualifyingCount(laws[..|laws| - 1]) + QualifyingCount(Articles(laws[|laws| - 1]))
  }

  /** No qualifying article of the run has a text longer than `chunkSize`. */
  predicate ArticlesFit(arts: seq<Article>, chunkSize: int) {
    forall j :: 0 <= j < |arts| && Qualifies(arts[j]) ==> |ChunkText(arts[j])| <= chunkSize
  }

  predicate LawsFit(laws: seq<Law>, chunkSize: int) {
    forall i :: 0 <= i < |laws| ==> ArticlesFit(Articles(laws[i]), chunkSize)
  }

  lemma {:induction false} ArticlesChunkCount(info: LawInfo, arts: seq<Article>, chunkSize: int, splitter: string -> seq<string>)
    requires ArticlesFit(arts, chunkSize)
    ensures |FlatMap(arts, ArticleChunker(info, chunkSize, splitter))| == QualifyingCount(arts)
  {
    if arts != [] {
      var front := arts[..|arts| - 1];
      assert ArticlesFit(front, chunkSize) by {
        forall j | 0 <= j < |front| && Qualifies(front[j]) ensures |ChunkText(front[j])| <= chunkSize {
          assert front[j] == arts[j];
        }
      }
      ArticlesChunkCount(info, front, chunkSize, splitter);
    }
  }

  /**
   * When no article text exceeds the chunk size, each qualifying article
   * yields exactly one chunk, so the chunk count is the number of qualifying
   * articles over all laws.
   */
  lemma {:induction false} ChunkCountWhenAllFit(laws: seq<Law>, chunkSize: int, splitter: string -> seq<string>)
    requires LawsFit(laws, chunkSize)
    ensures |SplitLaws(laws, chunkSize, splitter)| == LawsQualifyingCount(laws)
  {
    if laws != [] {
      var front := laws[..|laws| - 1];
      assert LawsFit(front, chunkSize) by {
        forall i | 0 <= i < |front| ensures ArticlesFit(Articles(front[i]), chunkSize) {
          assert front[i] == laws[i];
        }
      }
      ChunkCountWhenAllFit(front, chunkSize, splitter);
      var last := laws[|laws| - 1];
      ArticlesChunkCount(Info(last), Articles(last), chunkSize, splitter);
    }
  }

  /**
   * The splitter is consulted only for texts longer than the chunk size: when
   * every article fits, the chunks do not depend on the splitter at all.
   */
  lemma SplitterUnusedWhenAllFit(laws: seq<Law>, chunkSize: int, s1: string -> seq<string>, s2: string -> seq<string>)
    requires LawsFit(laws, chunkSize)
    ensures SplitLaws(laws, chunkSize, s1) == SplitLaws(laws, chunkSize, s2)
  {
    forall i | 0 <= i < |laws|
      ensures LawChunker(chunkSize, s1)(laws[i]) == LawChunker(chunkSize, s2)(laws[i])
    {
      var arts := Articles(laws[i]);
      assert ArticlesFit(arts, chunkSize);
      FlatMapPointwise(arts, ArticleChunker(Info(laws[i]), chunkSize, s1), arts, ArticleChunker(Info(laws[i]), chunkSize, s2));
    }
    FlatMapPointwise(laws, LawChunker(chunkSize, s1), laws, LawChunker(chunkSize, s2));
  }
}
