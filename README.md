# Yellowbrick vector store, modelled in Dafny

The Yellowbrick samples contain a Spring AI `VectorStore` backed by a Yellowbrick (PostgreSQL-dialect) database. It appears in two copies:

- the mature store of `samples/rags/vectorstore`;
- an earlier copy in `samples/rags/springai`.

Both copies work the same way:

- Each document is stored as one row of a content table: doc id, text and metadata JSON.
- Each document's embedding is stored as one row per component, `(doc_id, embedding_id, embedding)`, in an embedding table.
- A similarity search writes the query vector into a scratch query table, under a random search id.
- The search then joins the query table with the embedding table on `embedding_id`, scores each document by an aggregate over the joined pairs, keeps the best `topK`, joins the content table, and cleans the scratch rows up.
- The mature store also compiles a metadata filter expression into a SQL fragment that is appended to the query.

The model is pure state transformers over a small relational database, plus classes that apply them in place:

- `Engine.Db` holds the persistent catalog, the session's temporary tables, and the log of statements the JDBC template sent.
- `Engine.Database` is that state as an object. Its methods (`Execute`, `BatchInsertVectors`, `BatchInsertContent`, `Delete`, `Commit`, `Rollback`) are each proved equal to a function on `Db`.
- Table names resolve with PostgreSQL's search order (an unqualified name finds a temporary table first, then `public.<name>`), but they are compared exactly as written: unquoted identifiers are not folded to lower case, and blanks around the `.` are not removed.

The modules:

- `Batching`: `batchDocuments`, the loop and its partition.
- `Naming`: table names, trimming, `schema.table` and the filter wrapping `AND (...)`.
- `FilterCompiler`: the filter expression tree and its compiler, as the converter's unit test pins it down.
- `Documents`: documents and the embedding model. The model is an environment object that records its calls.
- `Engine`: tables, DDL, JDBC batches and deletes.
- `Ingest`: `insertOrUpdateEmbeddings`, `insertOrUpdateContent` and `doAdd`, shared by both copies.
- `Ranking`: the search query as the database evaluates it: join, GROUP BY, score, `ORDER BY score DESC LIMIT k`, content join, WHERE, outer ORDER BY.
- `VectorStore`: the mature store (configuration, Builder, bootstrap, add, transactional search, delete) and its `Store` class.
- `SpringAiStore`: the earlier copy, with its own bootstrap, search and `Store` class.

## Model

Paths are relative to the repository root. `V` below is `samples/rags/vectorstore/src/main/java/com/yellowbrick/springai/vectorstore/YellowBrickVectorStore.java`; each cell spells the path out.

| member | source | states |
|---|---|---|
| Batching.BatchDocuments | samples/rags/vectorstore/src/main/java/com/yellowbrick/springai/vectorstore/YellowBrickVectorStore.java:133-141 | The loop returns exactly the partition for a positive size. For a non-positive size, it returns no batch for an empty list and fails (subList) otherwise. A size of 0 with documents never terminates and is excluded. |
| Batching.PartitionPreservesOrder | samples/rags/vectorstore/src/main/java/com/yellowbrick/springai/vectorstore/YellowBrickVectorStore.java:133-141 | Concatenating the batches gives the input back, in order. |
| Batching.PartitionShape | samples/rags/springai/src/main/java/com/yellowbrick/springai/vectorstore/YellowBrickVectorStore.java:123-131 | For b > 0 there are ceil(n/b) batches. Each is a non-empty contiguous slice of at most b, and all but the last have exactly b. |
| Batching.PartitionLastBatch | samples/rags/vectorstore/src/main/java/com/yellowbrick/springai/vectorstore/YellowBrickVectorStore.java:133-141 | The last batch holds the remainder n - (count-1)·b. |
| Batching.PartitionOf9989By1000 | samples/rags/vectorstore/src/test/java/com/yellowbrick/springai/vectorstore/YellowBrickVectorStoreTest.java:93-103 | 9989 documents in batches of 1000 give ten batches: nine of 1000 and one of 989. |
| Naming.Trim | samples/rags/vectorstore/src/main/java/com/yellowbrick/springai/vectorstore/YellowBrickVectorStore.java:56 | String.trim: the result is the input without its leading and trailing characters <= ' ', and nothing else is removed. |
| Naming.BlankNameGivesEmptyBase | samples/rags/vectorstore/src/main/java/com/yellowbrick/springai/vectorstore/YellowBrickVectorStore.java:56 | Emptiness is tested before trimming, so an all-blank, non-empty name gives the base "". |
| Naming.TrimIdempotent | samples/rags/springai/src/main/java/com/yellowbrick/springai/vectorstore/YellowBrickVectorStore.java:47 | Trimming a trimmed name changes nothing. |
| Naming.TableNamesDistinct | samples/rags/vectorstore/src/main/java/com/yellowbrick/springai/vectorstore/YellowBrickVectorStore.java:332-343 | The embedding table (base), the content table (base_content) and the query table (base_query) are pairwise distinct names. |
| Naming.FilterClause | samples/rags/vectorstore/src/main/java/com/yellowbrick/springai/vectorstore/YellowBrickVectorStore.java:174-178 | The clause is empty exactly when the native filter has no non-whitespace character. Otherwise it is "AND (" + native + ")". |
| FilterCompiler.CompileStringEquality | samples/rags/vectorstore/src/test/java/com/yellowbrick/springai/vectorstore/YbVectorFilterExpressionConverterTest.java:31-32 | EQ on a string gives `metadata:file_name::varchar = 'EmployeeHandbook.odf'`. |
| FilterCompiler.CompileEqAndGte | samples/rags/vectorstore/src/test/java/com/yellowbrick/springai/vectorstore/YbVectorFilterExpressionConverterTest.java:39-42 | AND of EQ and GTE on a number gives the asserted text: the number is unquoted and no parentheses are added. |
| FilterCompiler.CompileIn | samples/rags/vectorstore/src/test/java/com/yellowbrick/springai/vectorstore/YbVectorFilterExpressionConverterTest.java:48-51 | IN over three strings gives the parenthesised OR chain of equality terms. |
| FilterCompiler.CompileNe | samples/rags/vectorstore/src/test/java/com/yellowbrick/springai/vectorstore/YbVectorFilterExpressionConverterTest.java:57-61 | OR(GTE, AND(EQ, NE)) gives the asserted text with `!=` and no parentheses. |
| FilterCompiler.CompileGroupAndNin | samples/rags/vectorstore/src/test/java/com/yellowbrick/springai/vectorstore/YbVectorFilterExpressionConverterTest.java:66-72 | AND(Group(OR), NIN) gives the asserted text: Group wraps its child in parentheses and NIN is `!(` + OR chain + `)`. |
| FilterCompiler.ParensOnlyFromWrappers | samples/rags/vectorstore/src/test/java/com/yellowbrick/springai/vectorstore/YbVectorFilterExpressionConverterTest.java:39-72 | For any tree whose keys and string literals carry no parentheses, the output has exactly one '(' and one ')' per Group, IN and NIN node. |
| FilterCompiler.NestingIsNotParenthesized | samples/rags/vectorstore/src/test/java/com/yellowbrick/springai/vectorstore/YbVectorFilterExpressionConverterTest.java:57-61 | OR(a, AND(b, c)) and AND(OR(a, b), c) compile to the same text, so the output does not determine the tree. |
| Documents.EmbeddingModel.EmbedAll | samples/rags/vectorstore/src/main/java/com/yellowbrick/springai/vectorstore/YellowBrickVectorStore.java:72 | One call carrying all the documents is recorded, and each document comes back carrying its vector. |
| Documents.EmbeddingModel.Embed | samples/rags/vectorstore/src/main/java/com/yellowbrick/springai/vectorstore/YellowBrickVectorStore.java:279-281 | One query call is recorded, and the vector of the text is returned. |
| Engine.RunUnfailing | samples/rags/vectorstore/src/main/java/com/yellowbrick/springai/vectorstore/YellowBrickVectorStore.java:304-327 | A sequence of DROP ... IF EXISTS / CREATE ... IF NOT EXISTS statements runs to the end, and exactly those statements are sent, in order. |
| Engine.CreateIfNotExistsIdempotent | samples/rags/vectorstore/src/main/java/com/yellowbrick/springai/vectorstore/YellowBrickVectorStore.java:312-327 | CREATE ... IF NOT EXISTS succeeds, and running it a second time changes no table. |
| Engine.CreateKeepsExisting | samples/rags/vectorstore/src/main/java/com/yellowbrick/springai/vectorstore/YellowBrickVectorStore.java:312-327 | CREATE TABLE IF NOT EXISTS on an existing name keeps that table, rows included. |
| Engine.DropRemovesResolved | samples/rags/vectorstore/src/main/java/com/yellowbrick/springai/vectorstore/YellowBrickVectorStore.java:304-307 | DROP TABLE IF EXISTS never fails, removes exactly the table the name resolves to, and leaves every other table. |
| Engine.TemporaryTableTwice | samples/rags/vectorstore/src/main/java/com/yellowbrick/springai/vectorstore/YellowBrickVectorStore.java:267-277 | CREATE TEMPORARY TABLE succeeds iff the name is free in the session. A second one of the same name fails with a duplicate-table error. |
| Engine.EmbeddingDdlText | samples/rags/vectorstore/src/main/java/com/yellowbrick/springai/vectorstore/YellowBrickVectorStore.java:321-327 | The embedding table's DDL text contains `embedding FLOAT NOT NULL`. |
| Engine.ContentDdlText | samples/rags/vectorstore/src/main/java/com/yellowbrick/springai/vectorstore/YellowBrickVectorStore.java:312-319 | The content table's DDL text contains `DISTRIBUTE ON (doc_id) SORT ON (doc_id)`. |
| Engine.AddContentRows | samples/rags/vectorstore/src/main/java/com/yellowbrick/springai/vectorstore/YellowBrickVectorStore.java:107-131 | On success every earlier row is kept, every new row is stored under its key, and nothing else is added. |
| Engine.AddContentRowsSucceeds | samples/rags/vectorstore/src/main/java/com/yellowbrick/springai/vectorstore/YellowBrickVectorStore.java:107-131 | A content batch succeeds exactly when every row fits its columns (lengths counted in characters), no key is already stored, and no key repeats (ids compared as written, not as parsed UUIDs). |
| Engine.FreshRowsRemoved | samples/rags/vectorstore/src/main/java/com/yellowbrick/springai/vectorstore/YellowBrickVectorStore.java:262-265 | Deleting by a key that only the appended rows carry gives back the table as it was. |
| Engine.DeleteRemovesKey | samples/rags/vectorstore/src/main/java/com/yellowbrick/springai/vectorstore/YellowBrickVectorStore.java:262-265 | DELETE ... WHERE doc_id = ? on a vector table succeeds and leaves exactly the rows with another doc_id. |
| Engine.DeleteUnknownColumn | samples/rags/vectorstore/src/main/java/com/yellowbrick/springai/vectorstore/YellowBrickVectorStore.java:148 | A DELETE on a column the tables lack fails and changes no table. |
| Engine.Database.Execute | samples/rags/vectorstore/src/main/java/com/yellowbrick/springai/vectorstore/YellowBrickVectorStore.java:275 | jdbcTemplate.execute updates the database as ApplyDdl says. |
| Engine.Database.BatchInsertVectors | samples/rags/vectorstore/src/main/java/com/yellowbrick/springai/vectorstore/YellowBrickVectorStore.java:89-103 | jdbcTemplate.batchUpdate of embedding rows updates the database as InsertVectors says. |
| Engine.Database.BatchInsertContent | samples/rags/vectorstore/src/main/java/com/yellowbrick/springai/vectorstore/YellowBrickVectorStore.java:110-130 | jdbcTemplate.batchUpdate of content rows updates the database as InsertContent says. |
| Engine.Database.Delete | samples/rags/vectorstore/src/main/java/com/yellowbrick/springai/vectorstore/YellowBrickVectorStore.java:263-264 | jdbcTemplate.update of a DELETE updates the database as DeleteWhere says. |
| Engine.Database.Commit | samples/rags/vectorstore/src/main/java/com/yellowbrick/springai/vectorstore/YellowBrickVectorStore.java:170-191 | COMMIT drops the transaction's ON COMMIT DROP tables and nothing else. |
| Engine.Database.Rollback | samples/rags/vectorstore/src/main/java/com/yellowbrick/springai/vectorstore/YellowBrickVectorStore.java:170-191 | ROLLBACK restores the tables of the transaction's start and keeps the log of what was sent. |
| Ingest.InsertOrUpdateEmbeddings | samples/rags/vectorstore/src/main/java/com/yellowbrick/springai/vectorstore/YellowBrickVectorStore.java:86-105 | The setter loop builds the rows (doc_id, i, v[i]) for i in [0, length) and sends them as one batch, with the effect of InsertVectors. |
| Ingest.VectorReconstructed | samples/rags/vectorstore/src/main/java/com/yellowbrick/springai/vectorstore/YellowBrickVectorStore.java:86-105 | The rows of that doc_id, selected from the table, are exactly the inserted rows, with indices 0..n-1, and their values read back give the vector. |
| Ingest.EmbedEachEffect | samples/rags/vectorstore/src/main/java/com/yellowbrick/springai/vectorstore/YellowBrickVectorStore.java:112-123 | When every vector fits SMALLINT indices, the per-document embedding batches succeed. The embedding table gains every document's rows in order, and nothing else changes. |
| Ingest.InsertOrUpdateContent | samples/rags/vectorstore/src/main/java/com/yellowbrick/springai/vectorstore/YellowBrickVectorStore.java:107-131 | First each document's embedding rows are inserted (a side effect of setValues), then the content batch is sent, with the effect of InsertBatch. |
| Ingest.InsertBatchEffect | samples/rags/vectorstore/src/main/java/com/yellowbrick/springai/vectorstore/YellowBrickVectorStore.java:107-131 | Embedding rows are appended even when the content batch then fails. The content table gains the batch's rows exactly when AddContentRows accepts them, and the outcome is that of the content batch. |
| Ingest.AllRowsLength | samples/rags/vectorstore/src/main/java/com/yellowbrick/springai/vectorstore/YellowBrickVectorStore.java:107-131 | Storing documents adds as many embedding rows as the sum of their vector lengths. |
| Ingest.InsertEach | samples/rags/vectorstore/src/main/java/com/yellowbrick/springai/vectorstore/YellowBrickVectorStore.java:74 | forEach over the batches, stopping at the first exception, has the effect of InsertBatches. |
| Ingest.InsertBatchesEffect | samples/rags/vectorstore/src/main/java/com/yellowbrick/springai/vectorstore/YellowBrickVectorStore.java:73-74 | When all rows fit and are new, storing the batches adds every document's embedding rows in order and every content row, and logs the batches in order. |
| Ingest.AddDocuments | samples/rags/vectorstore/src/main/java/com/yellowbrick/springai/vectorstore/YellowBrickVectorStore.java:73-74 | batchDocuments then forEach, in place, with the effect of StoreDocuments. |
| Ingest.StoreEffect | samples/rags/vectorstore/src/main/java/com/yellowbrick/springai/vectorstore/YellowBrickVectorStore.java:71-75 | A successful doAdd with positive batch size appends every document's vector rows and content rows, and sends the batches in partition order. |
| Ingest.StoreWithoutBatchSize | samples/rags/vectorstore/src/main/java/com/yellowbrick/springai/vectorstore/YellowBrickVectorStore.java:133-141 | Without a positive batch size nothing is stored: it passes for no documents and otherwise fails with InvalidBatchSize. For a negative size that failure is the source's throwing subList. For a size of 0 the source loops forever instead; the function StoreDocuments stands in for that loop with a failure that stores nothing, and the in-place methods exclude the case. |
| Ingest.StoresEachDocument | samples/rags/vectorstore/src/main/java/com/yellowbrick/springai/vectorstore/YellowBrickVectorStore.java:107-131 | After a successful doAdd each document reads back: its content row is stored under its id, and its embedding rows are its own vector in index order. |
| Ingest.StoreBatchSizes | samples/rags/vectorstore/src/test/java/com/yellowbrick/springai/vectorstore/YellowBrickVectorStoreTest.java:92-104 | The content batches sent by doAdd, in order, have the partition's batch sizes. |
| Ingest.ContentBatchSizes | samples/rags/vectorstore/src/test/java/com/yellowbrick/springai/vectorstore/YellowBrickVectorStoreTest.java:98-104 | Among the statements the batches send, the content-table batches are one per document batch, in order, with the batch's size. |
| Ranking.SortDesc | samples/rags/vectorstore/src/main/java/com/yellowbrick/springai/vectorstore/YellowBrickVectorStore.java:239 | ORDER BY score DESC: the result is a permutation of the input, sorted by non-increasing score. |
| Ranking.CandidatesCharacterized | samples/rags/vectorstore/src/main/java/com/yellowbrick/springai/vectorstore/YellowBrickVectorStore.java:221-232 | The GROUP BY yields one candidate per document sharing an embedding_id with the query rows, exactly those documents, each with the score of its joined pairs. |
| Ranking.RankedIsTopK | samples/rags/vectorstore/src/main/java/com/yellowbrick/springai/vectorstore/YellowBrickVectorStore.java:233 | The subquery keeps at most k candidates, sorted by score, and no candidate it leaves out scores higher than one it keeps. |
| Ranking.ResultsShape | samples/rags/vectorstore/src/main/java/com/yellowbrick/springai/vectorstore/YellowBrickVectorStore.java:215-239 | The result has at most topK rows, sorted by non-increasing score. A row is in the result iff it is a top-k candidate with content that satisfies the WHERE clause. |
| Ranking.LimitBeforeFilter | samples/rags/vectorstore/src/main/java/com/yellowbrick/springai/vectorstore/YellowBrickVectorStore.java:233-238 | A concrete case: the limit is applied before the filter, so fewer than k rows come back although more would pass the filter. |
| Ranking.SelectShape | samples/rags/vectorstore/src/main/java/com/yellowbrick/springai/vectorstore/YellowBrickVectorStore.java:213-260 | A successful query over the database's tables has that shape, and each row's text and metadata are that document's stored content row. |
| VectorStore.Configured | samples/rags/vectorstore/src/main/java/com/yellowbrick/springai/vectorstore/YellowBrickVectorStore.java:50-63 | The constructor's base name is the null/empty default or the trimmed name, and the drop flag is dropSchema. |
| VectorStore.BuilderDefaults | samples/rags/vectorstore/src/main/java/com/yellowbrick/springai/vectorstore/YellowBrickVectorStore.java:348-368 | A Builder used as it comes builds table "vector_store", batches of 10000, no initialisation, no drop and no transaction manager. |
| VectorStore.ConfigureKeepsTransactionManager | samples/rags/vectorstore/src/main/java/com/yellowbrick/springai/vectorstore/YellowBrickVectorStore.java:371-421 | No with... setter changes the Builder's transaction manager. |
| VectorStore.BuiltStoreHasNoTransactionManager | samples/rags/vectorstore/src/main/java/com/yellowbrick/springai/vectorstore/YellowBrickVectorStore.java:359 | Every store built from a new Builder, after any chain of setters, has no transaction manager. |
| VectorStore.SchemaNameIgnored | samples/rags/vectorstore/src/main/java/com/yellowbrick/springai/vectorstore/YellowBrickVectorStore.java:371-374 | withSchemaName has no effect on the built store. |
| VectorStore.BootstrapRuns | samples/rags/vectorstore/src/main/java/com/yellowbrick/springai/vectorstore/YellowBrickVectorStore.java:297-330 | For statements the database accepts, afterPropertiesSet never fails and sends exactly its statements. Without initializeSchema it sends nothing; with it, 4 or 2 statements. A DROP appears iff initialise and drop are both set, and every DROP precedes every CREATE. |
| VectorStore.QualifiedTablesDistinct | samples/rags/vectorstore/src/main/java/com/yellowbrick/springai/vectorstore/YellowBrickVectorStore.java:332-339 | The embedding and content tables resolve to different catalog entries. |
| VectorStore.BootstrapTables | samples/rags/vectorstore/src/main/java/com/yellowbrick/springai/vectorstore/YellowBrickVectorStore.java:304-327 | The catalog afterwards is the catalog after the optional DROPs, with the content table (json metadata, constraint base_pk_doc_id) and the embedding table each created only if absent. Temporary tables are unchanged. |
| VectorStore.BootstrapIdempotent | samples/rags/vectorstore/src/main/java/com/yellowbrick/springai/vectorstore/YellowBrickVectorStore.java:310-327 | Without drop, a second afterPropertiesSet changes no table. |
| VectorStore.BootstrapWithDropEmptiesTables | samples/rags/vectorstore/src/main/java/com/yellowbrick/springai/vectorstore/YellowBrickVectorStore.java:304-327 | With drop, both tables start out empty whatever they held. |
| VectorStore.TestBootstrap | samples/rags/vectorstore/src/test/java/com/yellowbrick/springai/vectorstore/YellowBrickVectorStoreTest.java:25-50 | The unit tests' Builder store (initialise, drop as given, batches of 1000) executes the two DROPs when dropping, then the content and the embedding CREATE, on table vector_store. |
| VectorStore.DropPatterns | samples/rags/vectorstore/src/main/java/com/yellowbrick/springai/vectorstore/YellowBrickVectorStore.java:305-306 | The DROP texts are exactly the two asserted strings, and neither contains a test's CREATE pattern. |
| VectorStore.ContentPatterns | samples/rags/vectorstore/src/main/java/com/yellowbrick/springai/vectorstore/YellowBrickVectorStore.java:312-319 | The content DDL contains the distribution clause and not the FLOAT column. |
| VectorStore.EmbeddingPatterns | samples/rags/vectorstore/src/main/java/com/yellowbrick/springai/vectorstore/YellowBrickVectorStore.java:321-327 | The embedding DDL contains the FLOAT column and not the distribution clause. |
| VectorStore.InitShouldInitializeDropTables | samples/rags/vectorstore/src/test/java/com/yellowbrick/springai/vectorstore/YellowBrickVectorStoreTest.java:25-36 | The test's store sends each DROP text once, one statement containing the FLOAT column and one containing the distribution clause. |
| VectorStore.InitShouldInitializeNotDropTables | samples/rags/vectorstore/src/test/java/com/yellowbrick/springai/vectorstore/YellowBrickVectorStoreTest.java:39-50 | Without drop no DROP text is sent, and each pattern occurs in exactly one statement. |
| VectorStore.ShouldAddDocumentsInBatches | samples/rags/vectorstore/src/test/java/com/yellowbrick/springai/vectorstore/YellowBrickVectorStoreTest.java:78-106 | A Builder store with batches of 1000 sends 9989 documents as ten content batches: nine of 1000, then one of 989. |
| VectorStore.CreateAndInsert | samples/rags/vectorstore/src/main/java/com/yellowbrick/springai/vectorstore/YellowBrickVectorStore.java:195-211 | When the query table is free, it is created in the session and holds exactly the vector's rows. |
| VectorStore.SearchKeepsTables | samples/rags/vectorstore/src/main/java/com/yellowbrick/springai/vectorstore/YellowBrickVectorStore.java:168-191 | On every path a search leaves the persistent and temporary tables as they were: the scratch table is dropped at commit or rolled back. |
| VectorStore.SearchTooLong | samples/rags/vectorstore/src/main/java/com/yellowbrick/springai/vectorstore/YellowBrickVectorStore.java:195-211 | A vector longer than the SMALLINT range fails the search with numeric-out-of-range, and the tables are rolled back. |
| VectorStore.SearchLog | samples/rags/vectorstore/src/main/java/com/yellowbrick/springai/vectorstore/YellowBrickVectorStore.java:180-186 | A successful search sends, in order, the CREATE TEMPORARY TABLE, one batch of length(v) rows, and the cleanup DELETE of the search id. |
| VectorStore.SearchResult | samples/rags/vectorstore/src/main/java/com/yellowbrick/springai/vectorstore/YellowBrickVectorStore.java:213-260 | A successful search returns the query's result over the store's own tables, with the vector's rows as the query rows and WHERE "1=1" + filter (tied scores in first-appearance order). |
| VectorStore.SearchShape | samples/rags/vectorstore/src/main/java/com/yellowbrick/springai/vectorstore/YellowBrickVectorStore.java:157-193 | A search result has at most topK documents, sorted by score, each stored with that text and metadata and passing the filter. |
| VectorStore.SearchSucceeds | samples/rags/vectorstore/src/main/java/com/yellowbrick/springai/vectorstore/YellowBrickVectorStore.java:157-193 | With a transaction manager, a free query-table name, a SMALLINT-sized vector and readable tables, the search succeeds, for statements and a filter the database accepts. |
| VectorStore.SearchSuccessPath | samples/rags/vectorstore/src/main/java/com/yellowbrick/springai/vectorstore/YellowBrickVectorStore.java:168-191 | Conversely, a search that succeeds had a transaction manager, a free query-table name and a SMALLINT-sized vector. |
| VectorStore.SelectAfterInsert | samples/rags/vectorstore/src/main/java/com/yellowbrick/springai/vectorstore/YellowBrickVectorStore.java:213-260 | The query on the filled query table is the query on the store's own tables with the vector's rows, and it succeeds when those tables are readable. |
| VectorStore.FinishKeepsTables | samples/rags/vectorstore/src/main/java/com/yellowbrick/springai/vectorstore/YellowBrickVectorStore.java:184-191 | Whatever the query returns, cleanup and commit (or rollback) leave every table as it was before the transaction. |
| VectorStore.ToDocuments | samples/rags/vectorstore/src/main/java/com/yellowbrick/springai/vectorstore/YellowBrickVectorStore.java:243-258 | Each result row becomes new Document(doc_id, text, metadata): same id, text and metadata, with no embedding. |
| VectorStore.SearchNeedsTransactionManager | samples/rags/vectorstore/src/main/java/com/yellowbrick/springai/vectorstore/YellowBrickVectorStore.java:60 | Without a transaction manager the search fails before sending anything. |
| VectorStore.NoFilterKeepsEveryRow | samples/rags/vectorstore/src/main/java/com/yellowbrick/springai/vectorstore/YellowBrickVectorStore.java:162-178 | Without a filter expression the WHERE text is the always-true "1=1". |
| VectorStore.FilterAppendedWithoutSpace | samples/rags/vectorstore/src/main/java/com/yellowbrick/springai/vectorstore/YellowBrickVectorStore.java:238 | With a filter the WHERE text is "1=1AND (" + native + ")", with no space before AND. |
| VectorStore.BuiltStoreCannotSearch | samples/rags/vectorstore/src/main/java/com/yellowbrick/springai/vectorstore/YellowBrickVectorStore.java:359-425 | Every Builder-built store fails every search with NoTransactionManager, and the database is unchanged. |
| VectorStore.BuildWithTransactionManager | samples/rags/vectorstore/src/main/java/com/yellowbrick/springai/vectorstore/YellowBrickVectorStore.java:423-425 | build() as intended passes the given transaction manager and is otherwise Build. |
| VectorStore.BuiltWithTransactionManagerSearches | samples/rags/vectorstore/src/main/java/com/yellowbrick/springai/vectorstore/YellowBrickVectorStore.java:157-193 | A store built with a transaction manager searches successfully under the conditions of SearchSucceeds. |
| VectorStore.DeleteAsWrittenFails | samples/rags/vectorstore/src/main/java/com/yellowbrick/springai/vectorstore/YellowBrickVectorStore.java:144-154 | The empty list answers Optional.of(true) and changes nothing. Any other list fails on its first id (no column "id", or no table) and deletes nothing. |
| VectorStore.DeletedCountAll | samples/rags/vectorstore/src/main/java/com/yellowbrick/springai/vectorstore/YellowBrickVectorStore.java:147-152 | The count of ids that removed a document equals the list's length iff the ids are stored and pairwise distinct. |
| VectorStore.DeleteBothEffect | samples/rags/vectorstore/src/main/java/com/yellowbrick/springai/vectorstore/YellowBrickVectorStore.java:147-149 | Deleting by doc_id from both tables counts the documents removed, leaves no content or embedding row of the ids, and keeps every other row. |
| VectorStore.DeleteDocumentsEffect | samples/rags/vectorstore/src/main/java/com/yellowbrick/springai/vectorstore/YellowBrickVectorStore.java:152 | The corrected delete answers true iff every id names a stored document and no id repeats. Afterwards no id has a content row or an embedding row. |
| VectorStore.Store.AfterPropertiesSet | samples/rags/vectorstore/src/main/java/com/yellowbrick/springai/vectorstore/YellowBrickVectorStore.java:297-330 | Executing the statements one by one has the effect of the bootstrap sequence. |
| VectorStore.Store.DoAdd | samples/rags/vectorstore/src/main/java/com/yellowbrick/springai/vectorstore/YellowBrickVectorStore.java:71-75 | The embedding model is called once, with the whole list, before batching. The database then changes as StoreDocuments says for the store's two tables. |
| VectorStore.Store.DoSimilaritySearch | samples/rags/vectorstore/src/main/java/com/yellowbrick/springai/vectorstore/YellowBrickVectorStore.java:157-193 | The query is embedded once. The transaction's steps, with rollback on any failure and commit at the end, have the effect of Search. |
| VectorStore.Store.DeleteIds | samples/rags/vectorstore/src/main/java/com/yellowbrick/springai/vectorstore/YellowBrickVectorStore.java:147-149 | The stream of DELETEs, counting the ids that removed one row, has the effect of DeleteWith. |
| VectorStore.Store.DoDelete | samples/rags/vectorstore/src/main/java/com/yellowbrick/springai/vectorstore/YellowBrickVectorStore.java:144-154 | doDelete as written has the effect of DeleteAsWritten. |
| SpringAiStore.BootstrapRuns | samples/rags/springai/src/main/java/com/yellowbrick/springai/vectorstore/YellowBrickVectorStore.java:259-291 | For statements the database accepts, it never fails and sends exactly its statements: none without initializeSchema; otherwise three, starting with CREATE SCHEMA. It never sends a DROP, because the drop flag is hard-wired false (line 50). |
| SpringAiStore.FullyQualifiedResolves | samples/rags/springai/src/main/java/com/yellowbrick/springai/vectorstore/YellowBrickVectorStore.java:293-295 | schemaName + "." + table names that catalog entry itself. |
| SpringAiStore.BootstrapTables | samples/rags/springai/src/main/java/com/yellowbrick/springai/vectorstore/YellowBrickVectorStore.java:266-288 | The content table <schema>.<table> (VARCHAR(1024) metadata, constraint "pkindex"), then public.ublc, are each created only if absent. Temporary tables are unchanged. |
| SpringAiStore.SearchedTableIsOwnOnlyByDefault | samples/rags/springai/src/main/java/com/yellowbrick/springai/vectorstore/YellowBrickVectorStore.java:195 | The content table the search joins is the one the store writes iff the store is public.vector_store, with names compared as written (no case folding). |
| SpringAiStore.EmbeddingsGoToSharedTable | samples/rags/springai/src/main/java/com/yellowbrick/springai/vectorstore/YellowBrickVectorStore.java:75-121 | Whatever the schema and table, a successful doAdd appends every document's vector rows to "ublc". |
| SpringAiStore.Fresh | samples/rags/springai/src/main/java/com/yellowbrick/springai/vectorstore/YellowBrickVectorStore.java:199-213 | mapRow builds new Document(text, metadata): row i gets the fresh id newId(i), not the stored doc id. |
| SpringAiStore.InsertIntoQueryTable | samples/rags/springai/src/main/java/com/yellowbrick/springai/vectorstore/YellowBrickVectorStore.java:156-172 | With "temptable" present and a vector within SMALLINT indices, the batch appends exactly the vector's rows to it. |
| SpringAiStore.JoinedTablesUntouched | samples/rags/springai/src/main/java/com/yellowbrick/springai/vectorstore/YellowBrickVectorStore.java:156-172 | Filling "temptable" leaves the rows of "ublc" and "vector_store" as they read before. |
| SpringAiStore.SelectAfterInsert | samples/rags/springai/src/main/java/com/yellowbrick/springai/vectorstore/YellowBrickVectorStore.java:174-216 | The query over the filled "temptable" is the LIMIT 4, unfiltered query over "ublc" and "vector_store" with the vector's rows, and it succeeds when those tables are readable. |
| SpringAiStore.CleanupRestores | samples/rags/springai/src/main/java/com/yellowbrick/springai/vectorstore/YellowBrickVectorStore.java:218-221 | cleanUp removes exactly the rows the insert added, so "temptable" and every other table are as before the search. |
| SpringAiStore.SearchResult | samples/rags/springai/src/main/java/com/yellowbrick/springai/vectorstore/YellowBrickVectorStore.java:140-221 | With "temptable" present and free of the search id, and "ublc" and "vector_store" readable, the search returns the LIMIT 4 query, with no filter, under fresh ids (tied scores in first-appearance order). It leaves every table as it was, and sends only the vector batch and the DELETE. |
| SpringAiStore.SearchShape | samples/rags/springai/src/main/java/com/yellowbrick/springai/vectorstore/YellowBrickVectorStore.java:174-197 | A successful search returns at most 4 documents, each with text and metadata stored together in "vector_store". |
| SpringAiStore.SearchWithoutQueryTable | samples/rags/springai/src/main/java/com/yellowbrick/springai/vectorstore/YellowBrickVectorStore.java:223-233 | createTemporaryTable executes nothing, so without an existing "temptable" the search fails with an undefined table, and only the batch is logged. |
| SpringAiStore.FailedQueryLeavesRows | samples/rags/springai/src/main/java/com/yellowbrick/springai/vectorstore/YellowBrickVectorStore.java:147-151 | With no transaction, a failing query skips the cleanup and the vector's rows stay in "temptable". |
| SpringAiStore.SearchSendsNoDdl | samples/rags/springai/src/main/java/com/yellowbrick/springai/vectorstore/YellowBrickVectorStore.java:140-154 | On every path the search sends only the vector batch, plus the cleanup DELETE when the query succeeded, and never any DDL. |
| SpringAiStore.Store.AfterPropertiesSet | samples/rags/springai/src/main/java/com/yellowbrick/springai/vectorstore/YellowBrickVectorStore.java:259-291 | Executing the statements one by one has the effect of the bootstrap sequence. |
| SpringAiStore.Store.DoAdd | samples/rags/springai/src/main/java/com/yellowbrick/springai/vectorstore/YellowBrickVectorStore.java:60-64 | The model is called once with the whole list. The database then changes as StoreDocuments says for <schema>.<table> and "ublc". |
| SpringAiStore.Store.DoSimilaritySearch | samples/rags/springai/src/main/java/com/yellowbrick/springai/vectorstore/YellowBrickVectorStore.java:140-154 | The query is embedded once. The statements, run one by one with no transaction, have the effect of Search. |
| SpringAiStore.Store.DoDelete | samples/rags/springai/src/main/java/com/yellowbrick/springai/vectorstore/YellowBrickVectorStore.java:133-137 | doDelete answers Optional.empty and changes nothing. |

## Left out

- Jackson: serialising metadata to JSON and parsing it back are identity. Metadata is modelled as its JSON text.
- `UUID.fromString`: parsing the doc id, whose failure on a malformed id would throw, is not modelled. Ids are strings, compared and stored as written.
- Engine.AddContentRowsSucceeds / Engine.AddContentRows / Ingest.StoresEachDocument / VectorStore.ToDocuments: these assume every doc id is canonical UUID text, lower case, as `UUID.toString` prints it. The `doc_id` columns are UUID and the server compares parsed UUIDs. So two spellings of one UUID (upper and lower case, or a lenient form such as `1-2-3-4-5` that `UUID.fromString` accepts) are one primary key on the server but two keys in the model. For such a batch, "no key repeats" holds in the model while the server rejects the batch. A document read back gets the server's canonical text, which the model gives back as written.
- Engine.Qualified / SpringAiStore.SearchedTableIsOwnOnlyByDefault: names are compared as written, with no case folding of unquoted identifiers and no removal of blanks around the `.`. The springai copy joins `schemaName + "." + vectorTableName` without trimming the schema. With schema `PUBLIC` (or ` public`) the server bootstraps and fills `public.vector_store`, the very table the search joins, while the lemma's only-if direction calls them different tables. Its iff holds for lower-case schema and table names without blanks.
- The random search id and the ids `new Document(...)` draws are parameters (`searchId`, `newId`). Their uniqueness is a precondition (`QueryTableFree`, `FreshId`) and is not modelled as randomness.
- The cosine score is an abstract function `score` of the joined (query, document) pairs. Floating-point arithmetic, `float` rounding of the vector components and division by zero are not modelled.
- The WHERE condition the filter compiles to is evaluated by an abstract `holds` predicate. Only the literal "1=1" is interpreted.
- The filter converter's own source is not part of this model. `FilterCompiler.Compile` follows the unit test exactly: NIN renders as `!(...)`.
- Observation, micrometer, logging (including the deleted-records count, which only reaches the log), the batching strategy passed to the embedding model, and `System.err` printing are left out.
- Concurrency across sessions is left out: each `Database` is one session. Temporary tables are session-local, and ON COMMIT DROP is modelled by `Commit`.
- `CREATE SCHEMA IF NOT EXISTS` is logged but creates nothing. Schemas are not modelled: a qualified name simply names a catalog entry.
- The SELECT of the search is not logged: the modelled log holds DDL, batches and deletes, which is what the unit tests observe.
- Batching.BatchDocuments: a batch size of 0 with documents makes the source loop forever (`i += 0`, appending empty slices). The loop methods `Batching.BatchDocuments`, `Ingest.AddDocuments`, `VectorStore.Store.DoAdd` and `SpringAiStore.Store.DoAdd` exclude that case by a precondition. The pure function `Ingest.StoreDocuments`, and so `Ingest.StoreWithoutBatchSize`, `VectorStore.Added` and `SpringAiStore.Added`, stand in for the endless loop with `Fail(InvalidBatchSize(0))`, which stores nothing. No result is returned in the source for that case.
- Engine.FitsColumns / Engine.AddContentRowsSucceeds: the `VARCHAR(60000)` text limit and the springai copy's `VARCHAR(1024)` metadata limit are checked on the number of characters of the text. If the server counts the bytes of the encoded text, a non-ASCII text that fits in characters but not in bytes is accepted by the model and rejected by the server.
- Batching.BatchDocuments: Java `int` overflow of `i + maxDocumentBatchSize` is not modelled. Integers are unbounded here, so a batch size above 2^30 with more documents than that gives two batches, whereas the source computes a negative end index and `subList` throws.
- Ranking.Ranked / Ranking.SortDesc: tied scores keep the order in which the documents first appear in the embedding table, both at the `LIMIT` cut and in the final `ORDER BY score DESC`. The database leaves the order among ties, and the output order of `GROUP BY`, unspecified. So `VectorStore.SearchResult`, `SpringAiStore.SearchResult` and `Ranking.ResultsShape` fix one resolution of ties that a real server need not choose. Without ties the results are determined.
- Statement texts are never rejected by the modelled database. An empty or reserved identifier is accepted as a table or schema name. An example is the empty base that a blank table name gives, or the springai copy's `CREATE SCHEMA IF NOT EXISTS null` for a null schema. Evaluating the WHERE condition through `holds` cannot fail, so a filter the server cannot evaluate (such as a varchar compared with a number) is not modelled. `VectorStore.BootstrapRuns`, `SpringAiStore.BootstrapRuns` and `VectorStore.SearchSucceeds` therefore hold for statements the database accepts.
- The embedding model's results are used as the source uses them: `embed(documents, ...)` is assumed to attach each vector to its document, and the stored embedding is the document's.
- The unit test `shouldAddDocumentsInBatchesAndEmbedOnce` runs against a JdbcTemplate mock. Against a real database, its 9989 copies of one document would share one id, and the first content batch would fail on the primary key. `VectorStore.ShouldAddDocumentsInBatches` states the batch sizes under the test's success assumption (the content table accepts the rows).
- The integration test against a live database and OpenAI embeddings, and the Spring bean wiring of `Config.java`, are left out.
- The springai copy's unused `c` string in `afterPropertiesSet`, and its `removeExistingVectorStoreTable` branch, are left out. The flag is always false, so the branch is unreachable and the model has no DROP for that copy.

## Findings

| source | as written | input that shows it | evidently intended | confidence | as-written member | corrected member |
|---|---|---|---|---|---|---|
| samples/rags/vectorstore/src/main/java/com/yellowbrick/springai/vectorstore/YellowBrickVectorStore.java:144-154 | doDelete issues `DELETE FROM <base> WHERE id = ?` against the embedding table, which has no `id` column, and answers true | any non-empty id list, e.g. one stored document's id | delete the document's content row and embedding rows by `doc_id`, and answer true when every id was deleted (the to-do note at line 152) | not executed | VectorStore.DeleteAsWrittenFails | VectorStore.DeleteDocumentsEffect |
| samples/rags/vectorstore/src/main/java/com/yellowbrick/springai/vectorstore/YellowBrickVectorStore.java:359-425 | the Builder's transactionManager is null and no setter changes it, so `new TransactionTemplate(null).execute` fails on every search | any Builder chain, then any doSimilaritySearch | build() passes a real transaction manager, so the search runs in a transaction | not executed | VectorStore.BuiltStoreCannotSearch | VectorStore.BuiltWithTransactionManagerSearches |
