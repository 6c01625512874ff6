/**
 * `ETLTransformer.transform_articles`: every article becomes one document
 * with a fixed set of content fields and the batch's ingestion timestamp.
 */
module Transformer {
  import opened Wrappers
  import opened Json
  import opened Extractor

  /** The instant `datetime.utcnow()` returned, read once per call. */
  type Timestamp = int

  /** The seven content fields every document has, and no others. */
  const ContentFields: set<string> :=
    {"source", "author", "title", "description", "url", "publishedAt", "content"}

  /** A normalised document: its content fields and its `ingestion_timestamp`. */
  datatype Document = Document(fields: map<string, Value>, ingestionTimestamp: Timestamp)

  /** `article.get(key)`: the value under `key`, or null when the key is missing. */
  function FieldOrNull(article: Article, key: string): (v: Value)
    ensures key !in article ==> v == Null
    ensures key in article ==> v == article[key]
  {
    if key in article then article[key] else Null
  }

  /** The document built for one article inside the loop. */
  function Normalize(article: Article, ingestionTime: Timestamp): (d: Document)
    ensures d.fields.Keys == ContentFields
    ensures forall k :: k in ContentFields ==> d.fields[k] == FieldOrNull(article, k)
    ensures d.ingestionTimestamp == ingestionTime
  {
    Document(map k | k in ContentFields :: FieldOrNull(article, k), ingestionTime)
  }

  /**
   * Only the content fields of an article matter: two articles that agree
   * on them (present with the same value, or both missing) give the same
   * document, whatever other keys they carry.
   */
  lemma NormalizeIgnoresOtherKeys(a: Article, b: Article, t: Timestamp)
    requires forall k :: k in ContentFields ==> FieldOrNull(a, k) == FieldOrNull(b, k)
    ensures Normalize(a, t) == Normalize(b, t)
  {
  }

  /**
   * `transform_articles`: `None` for a missing or empty list; otherwise one
   * document per article, in the same order, all stamped with the same
   * ingestion time.
   */
  method TransformArticles(articles: Option<seq<Article>>, ingestionTime: Timestamp)
    returns (r: Option<seq<Document>>)
    ensures r.None? <==> IsEmpty(articles)
    ensures r.Some? ==> |r.value| == |articles.value| && r.value != []
    ensures r.Some? ==> forall i :: 0 <= i < |r.value| ==>
              r.value[i] == Normalize(articles.value[i], ingestionTime)
    ensures r.Some? ==> forall i :: 0 <= i < |r.value| ==>
              r.value[i].ingestionTimestamp == ingestionTime
  {
    if IsEmpty(articles) {
      return None;
    }
    var transformed: seq<Document> := [];
    for i := 0 to |articles.value|
      invariant |transformed| == i
      invariant forall j :: 0 <= j < i ==> transformed[j] == Normalize(articles.value[j], ingestionTime)
    {
      transformed := transformed + [Normalize(articles.value[i], ingestionTime)];
    }
    return Some(transformed);
  }
}
