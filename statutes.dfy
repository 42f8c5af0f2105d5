/**
 * The statute corpus after JSON decoding: `Laws[]`, each with an ordered
 * `LawArticles[]`. A JSON object may leave a key out, so every field is an
 * `Option`; the accessors below apply the defaults the ingestion code gives to
 * `dict.get` (`"未知法律"` for a missing law name, `""` for everything else)
 * and strip article numbers and contents as it does.
 */
module Statutes {
  import opened Wrappers
  import opened Text

  datatype Article = Article(
    articleType: Option<string>,     // "ArticleType": "A" article, "C" heading
    articleNo: Option<string>,       // "ArticleNo"
    articleContent: Option<string>)  // "ArticleContent"

  datatype Law = Law(
    lawName: Option<string>,         // "LawName"
    lawLevel: Option<string>,        // "LawLevel"
    lawCategory: Option<string>,     // "LawCategory"
    lawUrl: Option<string>,          // "LawURL"
    modifiedDate: Option<string>,    // "LawModifiedDate"
    lawArticles: Option<seq<Article>>)  // "LawArticles"

  const UnknownLaw: string := "未知法律"
  const ArticleKind: string := "A"
  const HeadingKind: string := "C"

  /** The per-law fields every chunk of the law is tagged with. */
  datatype LawInfo = LawInfo(name: string, level: string, category: string, url: string, modifiedDate: string)

  function Info(law: Law): LawInfo {
    LawInfo(
      law.lawName.GetOr(UnknownLaw),
      law.lawLevel.GetOr(""),
      law.lawCategory.GetOr(""),
      law.lawUrl.GetOr(""),
      law.modifiedDate.GetOr(""))
  }

  function Articles(law: Law): seq<Article> {
    law.lawArticles.GetOr([])
  }

  function ArticleType(a: Article): string {
    a.articleType.GetOr("")
  }

  /** `article.get("ArticleNo", "").strip()` */
  function ArticleNo(a: Article): string {
    Strip(a.articleNo.GetOr(""))
  }

  /** `article.get("ArticleContent", "").strip()` */
  function ArticleContent(a: Article): string {
    Strip(a.articleContent.GetOr(""))
  }

  /** A substantive article with some text: the only entries that are indexed. */
  predicate Qualifies(a: Article) {
    ArticleType(a) == ArticleKind && ArticleContent(a) != ""
  }

  /** The text of an article: its number and a newline before the content when it has a number. */
  function ChunkText(a: Article): string {
    if ArticleNo(a) != "" then ArticleNo(a) + "\n" + ArticleContent(a) else ArticleContent(a)
  }

  /**
   * An article's text is its stripped number, one newline and its stripped
   * content when it has a number (nothing else lies between them), the bare
   * content otherwise, and carries no outer whitespace when it qualifies.
   */
  lemma ChunkTextShape(a: Article)
    ensures var r, no, content := ChunkText(a), ArticleNo(a), ArticleContent(a);
      && |r| >= |content| && r[|r| - |content|..] == content
      && (no != "" ==> |r| > |no| && r[..|no|] == no && r[|no|] == '\n')
      && (no != "" ==> |r| == |no| + 1 + |content|)
      && (no == "" ==> r == content)
      && (Qualifies(a) ==> r != [] && !IsSpace(r[0]) && !IsSpace(r[|r| - 1]))
  {
    var no, content := ArticleNo(a), ArticleContent(a);
    StripSpec(a.articleNo.GetOr(""));
    StripSpec(a.articleContent.GetOr(""));
    if no != "" {
      assert (no + "\n" + content)[..|no|] == no;
    }
  }
}
