/**
 * A LangChain `Document` as the application sees it: page text plus a
 * string-valued metadata dictionary, read with `metadata.get(key, default)`.
 */
module Documents {

  datatype Doc = Doc(pageContent: string, metadata: map<string, string>)

  /** `metadata.get(key, default)`. */
  function Get(metadata: map<string, string>, key: string, default: string): (r: string)
    ensures key in metadata ==> r == metadata[key]
    ensures key !in metadata ==> r == default
  {
    if key in metadata then metadata[key] else default
  }

  /** The page texts of a list of documents, in order. */
  function Texts(docs: seq<Doc>): (r: seq<string>)
    ensures |r| == |docs|
  {
    seq(|docs|, i requires 0 <= i < |docs| => docs[i].pageContent)
  }

  /** Taking the texts commutes with concatenation. */
  lemma TextsConcat(xs: seq<Doc>, ys: seq<Doc>)
    ensures Texts(xs + ys) == Texts(xs) + Texts(ys)
  {
  }
}
