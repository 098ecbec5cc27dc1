/** The records the indexer stores and the querier returns
    (src/cocoindex_code/schema.py and the row type in shared.py). */
module Schema {

  /** An embedding vector as the encoder produces it. Its components are
      floating point and never inspected by the code modelled here, so the
      type is left abstract; only equality of vectors is needed. */
  type Embedding(==)

  /** One stored row of the `code_chunks` table; `id` is its primary key. */
  datatype CodeChunk = CodeChunk(
    id: int,
    filePath: string,
    language: string,
    content: string,
    startLine: int,
    endLine: int,
    embedding: Embedding)

  /** One search hit: a stored row without its id and embedding, plus a score. */
  datatype QueryResult = QueryResult(
    filePath: string,
    language: string,
    content: string,
    startLine: int,
    endLine: int,
    score: real)

  /** An exception escaping a foreign call, with its `str(e)` text. `RuntimeError`
      stands for `RuntimeError` and its subclasses; every other class is `OtherError`. */
  datatype Raised = RuntimeError(message: string) | OtherError(message: string)
}
