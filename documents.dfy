/**
 * Documents and the embedding model as the vector store sees them. The model is an
 * external service: its vectors are an abstract function of the text, and every
 * call it receives is recorded.
 */
module Documents {

  /**
   * A document: its id (a UUID in text form), its content, its metadata already
   * rendered as JSON text, and the embedding the caller attached to it.
   */
  datatype Document = Document(id: string, content: string, metadata: string, embedding: seq<real>)

  datatype EmbedCall =
    | EmbedDocuments(documents: seq<Document>)
    | EmbedQuery(text: string)

  /** Each document with its embedding set to the vector of its content. */
  function WithEmbeddings(documents: seq<Document>, vectorOf: string -> seq<real>): (r: seq<Document>)
    ensures |r| == |documents|
    ensures forall i :: 0 <= i < |r| ==>
      r[i].id == documents[i].id && r[i].content == documents[i].content &&
      r[i].metadata == documents[i].metadata && r[i].embedding == vectorOf(documents[i].content)
  {
    seq(|documents|, i requires 0 <= i < |documents| => documents[i].(embedding := vectorOf(documents[i].content)))
  }

  class EmbeddingModel {
    /** The vector the service returns for a text. */
    const vectorOf: string -> seq<real>
    /** The calls received, in order. */
    var calls: seq<EmbedCall>

    constructor (vectorOf: string -> seq<real>)
      ensures this.vectorOf == vectorOf
      ensures calls == []
    {
      this.vectorOf := vectorOf;
      calls := [];
    }

    /**
     * embed(documents, options, batchingStrategy): one vector per document, in
     * order; the library attaches each vector to its document (setEmbedding), so
     * the caller's documents come back carrying their embeddings.
     */
    method EmbedAll(documents: seq<Document>) returns (embedded: seq<Document>)
      modifies this
      ensures calls == old(calls) + [EmbedDocuments(documents)]
      ensures embedded == WithEmbeddings(documents, vectorOf)
    {
      calls := calls + [EmbedDocuments(documents)];
      embedded := WithEmbeddings(documents, vectorOf);
    }

    /** embed(query): the vector of a search text. */
    method Embed(text: string) returns (vector: seq<real>)
      modifies this
      ensures calls == old(calls) + [EmbedQuery(text)]
      ensures vector == vectorOf(text)
    {
      calls := calls + [EmbedQuery(text)];
      vector := vectorOf(text);
    }
  }
}
