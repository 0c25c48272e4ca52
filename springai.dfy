/**
 * The earlier copy of the store in the spring-ai sample. It stores documents the
 * same way, into <schema>.<table> for content and a fixed embedding table "ublc";
 * it searches without a transaction, through a fixed query table "temptable" that
 * it never creates, joining "ublc" with a fixed content table "vector_store" and
 * keeping four matches; doDelete is not implemented.
 */
module SpringAiStore {
  import opened Wrappers
  import opened Engine
  import opened Documents
  import opened Naming
  import opened Ingest
  import opened Ranking

  /** The embedding table every store of this copy writes and searches. */
  const EmbeddingTable: string := "ublc"
  /** The query table the search inserts into, reads and cleans. */
  const QueryTable: string := "temptable"
  /** The content table the search joins. */
  const SearchedTable: string := "vector_store"
  /** LIMIT 4 of the inner query. */
  const ResultLimit: nat := 4
  /** The content table's primary key constraint. */
  const ContentConstraint: string := "pkindex"
  /** metadata VARCHAR(1024). */
  const MetadataLimit: nat := 1024

  /**
   * The constructor's state: the schema name as given (possibly null), the base
   * name, the batch size and initializeSchema. removeExistingVectorStoreTable is
   * always false, so the bootstrap's DROP branch is never taken.
   */
  datatype Settings = Settings(schemaName: Option<string>, base: string, maxDocumentBatchSize: int, initializeSchema: bool)

  function Configured(schemaName: Option<string>, vectorTableName: Option<string>, initializeSchema: bool,
                      maxDocumentBatchSize: int): Settings
  {
    Settings(schemaName, BaseName(vectorTableName), maxDocumentBatchSize, initializeSchema)
  }

  /** getFullyQualifiedTableName(): schema, a dot, base; a null schema prints as "null". */
  function FullyQualifiedTableName(s: Settings): string
  {
    QualifiedName(s.schemaName, s.base)
  }

  // ---------------------------------------------------------------------------
  // afterPropertiesSet

  function Bootstrap(s: Settings): seq<Ddl>
  {
    if !s.initializeSchema then []
    else [CreateSchemaIfNotExists(JavaText(s.schemaName)),
          CreateContentTableIfNotExists(FullyQualifiedTableName(s), ContentConstraint, VarcharColumn(MetadataLimit)),
          CreateEmbeddingTableIfNotExists(EmbeddingTable)]
  }

  /**
   * The bootstrap never fails and sends exactly its statements: nothing without
   * initializeSchema, otherwise CREATE SCHEMA first and then the two tables; it
   * never sends a DROP.
   */
  lemma BootstrapRuns(db: Db, s: Settings)
    ensures RunDdl(db, Bootstrap(s)).1 == Pass
    ensures RunDdl(db, Bootstrap(s)).0.log == db.log + Executions(Bootstrap(s))
    ensures !s.initializeSchema ==> RunDdl(db, Bootstrap(s)).0 == db
    ensures s.initializeSchema ==> |Bootstrap(s)| == 3 && Bootstrap(s)[0] == CreateSchemaIfNotExists(JavaText(s.schemaName))
    ensures forall i :: 0 <= i < |Bootstrap(s)| ==> !Bootstrap(s)[i].DropTableIfExists?
  {
    RunUnfailing(db, Bootstrap(s));
    assert db.log + [] == db.log;
  }

  /** The content table's name carries the schema's dot, so it resolves to itself. */
  lemma FullyQualifiedResolves(s: Settings)
    ensures Qualified(FullyQualifiedTableName(s)) == FullyQualifiedTableName(s)
  {
    var n := FullyQualifiedTableName(s);
    assert n[|JavaText(s.schemaName)|] == '.';
  }

  /**
   * What the bootstrap does to the catalog: the content table <schema>.<table> with
   * VARCHAR(1024) metadata and constraint "pkindex", then "public.ublc", each
   * created only when its name is free. The session's temporary tables are untouched.
   */
  lemma BootstrapTables(db: Db, s: Settings)
    requires s.initializeSchema
    ensures RunDdl(db, Bootstrap(s)).0.temp == db.temp
    ensures RunDdl(db, Bootstrap(s)).0.tables ==
      CreateMissing(CreateMissing(db.tables, FullyQualifiedTableName(s),
                                  ContentTable(map[], VarcharColumn(MetadataLimit), ContentConstraint)),
                    DefaultSchema + "." + EmbeddingTable, VectorTable([]))
  {
    var n := FullyQualifiedTableName(s);
    var ds := Bootstrap(s);
    FullyQualifiedResolves(s);
    assert '.' !in EmbeddingTable;
    var d1 := ApplyDdl(db, ds[0]).0;
    assert d1.tables == db.tables && d1.temp == db.temp;
    var d2 := ApplyDdl(d1, ds[1]).0;
    assert d2.tables == CreateMissing(db.tables, n, ContentTable(map[], VarcharColumn(MetadataLimit), ContentConstraint));
    var d3 := ApplyDdl(d2, ds[2]).0;
    assert ds[1..][1..][1..] == [];
    assert RunDdl(db, ds) == RunDdl(d3, []) by {
      assert RunDdl(db, ds) == RunDdl(d1, ds[1..]);
      assert RunDdl(d1, ds[1..]) == RunDdl(d2, ds[1..][1..]);
    }
  }

  /**
   * The search joins "vector_store", the bootstrap creates <schema>.<table>: the
   * two are the same table exactly when the store is public.vector_store.
   */
  lemma SearchedTableIsOwnOnlyByDefault(s: Settings)
    ensures Qualified(FullyQualifiedTableName(s)) == Qualified(SearchedTable) <==>
      s.schemaName == Some(DefaultSchema) && s.base == SearchedTable
  {
    FullyQualifiedResolves(s);
    var x := JavaText(s.schemaName);
    var n := FullyQualifiedTableName(s);
    var target := "public" + "." + SearchedTable;
    assert '.' !in SearchedTable;
    assert Qualified(SearchedTable) == target;
    if n == target {
      assert n[|x|] == '.';
      assert |x| == 6;
      assert x == n[..6] == "public";
      assert s.base == n[7..] == SearchedTable;
    }
    if s.schemaName == Some(DefaultSchema) && s.base == SearchedTable {
      assert n == target;
    }
  }

  // ---------------------------------------------------------------------------
  // doAdd

  /** doAdd on <schema>.<table> and "ublc" with the store's batch size. */
  function Added(s: Settings, db: Db, documents: seq<Document>): (Db, Outcome<StoreError>)
  {
    StoreDocuments(db, FullyQualifiedTableName(s), EmbeddingTable, documents, s.maxDocumentBatchSize)
  }

  /**
   * Whatever its schema and table, a store of this copy appends its vectors to the
   * one shared "ublc": a successful doAdd leaves "ublc" holding its earlier rows
   * followed by every document's rows.
   */
  lemma EmbeddingsGoToSharedTable(s: Settings, db: Db, documents: seq<Document>, loc: Location, cloc: Location)
    requires s.maxDocumentBatchSize > 0
    requires VectorTableAt(db, EmbeddingTable, loc) && ContentTableAt(db, FullyQualifiedTableName(s), cloc)
    requires FitsSmallint(documents)
    requires AddedContent(At(db, cloc), documents).Success?
    ensures Added(s, db, documents).1 == Pass
    ensures Exists(Added(s, db, documents).0, loc)
    ensures At(Added(s, db, documents).0, loc) == VectorTable(At(db, loc).vrows + AllEmbeddingRows(documents))
  {
    StoreEffect(db, FullyQualifiedTableName(s), EmbeddingTable, documents, s.maxDocumentBatchSize, loc, cloc);
    var vt := VectorTable(At(db, loc).vrows + AllEmbeddingRows(documents));
    assert loc != cloc;
    PutOther(Put(db, loc, vt), cloc, ContentAfter(At(db, cloc), documents), loc);
  }

  // ---------------------------------------------------------------------------
  // doSimilaritySearch

  /** The search has no filter: every metadata passes. */
  function NoFilter(w: string, metadata: string): bool { true }

  /** mapRow: new Document(text, metadata), which draws a fresh id; newId(i) is the id of row i. */
  function Fresh(found: seq<Found>, newId: nat -> string): (r: seq<Document>)
    ensures |r| == |found|
    ensures forall i :: 0 <= i < |r| ==>
      r[i] == Document(newId(i), found[i].text, found[i].metadata, [])
  {
    seq(|found|, i requires 0 <= i < |found| => Document(newId(i), found[i].text, found[i].metadata, []))
  }

  /** getDocuments, then cleanUpTempTable; a failed query skips the cleanup. */
  function Finish(db: Db, searchId: string, found: Result<seq<Found>, StoreError>, newId: nat -> string)
    : (Db, Result<seq<Document>, StoreError>)
  {
    match found
    case Failure(e) => (db, Failure(e))
    case Success(f) =>
      var cleaned := DeleteWhere(db, QueryTable, "doc_id", searchId);
      if cleaned.1.Failure? then (cleaned.0, Failure(cleaned.1.error))
      else (cleaned.0, Success(Fresh(f, newId)))
  }

  /**
   * doSimilaritySearch once the query is embedded: createTemporaryTable sends
   * nothing; the vector goes into "temptable", the query runs against "ublc" and
   * "vector_store", and the vector's rows are deleted again. There is no
   * transaction: each statement stands on its own.
   */
  function Search(db: Db, searchId: string, v: seq<real>, score: seq<(real, real)> -> real, newId: nat -> string)
    : (Db, Result<seq<Document>, StoreError>)
  {
    var inserted := InsertVectors(db, QueryTable, EmbeddingRows(searchId, v));
    if inserted.1.Fail? then (inserted.0, Failure(inserted.1.error))
    else Finish(inserted.0, searchId,
                Select(inserted.0, QueryTable, EmbeddingTable, SearchedTable, searchId, ResultLimit, None, score, NoFilter),
                newId)
  }

  /** "temptable" resolves to a vector table at loc. */
  predicate QueryTableAt(db: Db, loc: Location)
  {
    Locate(db, QueryTable) == Some(loc) && At(db, loc).VectorTable?
  }

  /** No earlier row of the query table carries the search id. */
  predicate FreshId(db: Db, loc: Location, searchId: string)
    requires Exists(db, loc)
  {
    At(db, loc).VectorTable? && forall i :: 0 <= i < |At(db, loc).vrows| ==> At(db, loc).vrows[i].docId != searchId
  }

  /** The vector's rows appended to the query table. */
  function AfterInsert(db: Db, loc: Location, searchId: string, v: seq<real>): Db
    requires Exists(db, loc) && At(db, loc).VectorTable?
  {
    Put(db.(log := db.log + [Batched(QueryTable, |v|)]), loc, VectorTable(At(db, loc).vrows + EmbeddingRows(searchId, v)))
  }

  lemma InsertIntoQueryTable(db: Db, loc: Location, searchId: string, v: seq<real>)
    requires QueryTableAt(db, loc)
    requires |v| <= SmallintMax + 1
    ensures InsertVectors(db, QueryTable, EmbeddingRows(searchId, v)) == (AfterInsert(db, loc, searchId, v), Pass)
  {
    var rows := EmbeddingRows(searchId, v);
    var logged := db.(log := db.log + [Batched(QueryTable, |v|)]);
    if |rows| == 0 {
      assert At(db, loc).vrows + rows == At(db, loc).vrows;
      PutSame(logged, loc);
    } else {
      assert SmallintIndices(rows);
    }
  }

  /** The tables the query joins are not the query table; inserting into it leaves them as they were. */
  lemma JoinedTablesUntouched(db: Db, loc: Location, searchId: string, v: seq<real>)
    requires QueryTableAt(db, loc)
    ensures VectorRowsOf(AfterInsert(db, loc, searchId, v), EmbeddingTable) == VectorRowsOf(db, EmbeddingTable)
    ensures ContentRowsOf(AfterInsert(db, loc, searchId, v), SearchedTable) == ContentRowsOf(db, SearchedTable)
  {
    var after := AfterInsert(db, loc, searchId, v);
    var logged := db.(log := db.log + [Batched(QueryTable, |v|)]);
    assert '.' !in QueryTable && '.' !in EmbeddingTable && '.' !in SearchedTable;
    LocatePut(logged, loc, VectorTable(At(db, loc).vrows + EmbeddingRows(searchId, v)), EmbeddingTable);
    LocatePut(logged, loc, VectorTable(At(db, loc).vrows + EmbeddingRows(searchId, v)), SearchedTable);
    match Locate(db, EmbeddingTable)
    case None =>
    case Some(l) =>
      assert l != loc;
      PutOther(logged, loc, VectorTable(At(db, loc).vrows + EmbeddingRows(searchId, v)), l);
    match Locate(db, SearchedTable)
    case None =>
    case Some(l) =>
      assert l != loc;
      PutOther(logged, loc, VectorTable(At(db, loc).vrows + EmbeddingRows(searchId, v)), l);
  }

  /** The query on the filled query table: the vector's own rows against "ublc", joined with "vector_store". */
  lemma SelectAfterInsert(db: Db, loc: Location, searchId: string, v: seq<real>, score: seq<(real, real)> -> real)
    requires QueryTableAt(db, loc) && FreshId(db, loc, searchId)
    ensures var found := Select(AfterInsert(db, loc, searchId, v), QueryTable, EmbeddingTable, SearchedTable,
                                searchId, ResultLimit, None, score, NoFilter);
      found.Success? <==> VectorRowsOf(db, EmbeddingTable).Success? && ContentRowsOf(db, SearchedTable).Success?
    ensures var found := Select(AfterInsert(db, loc, searchId, v), QueryTable, EmbeddingTable, SearchedTable,
                                searchId, ResultLimit, None, score, NoFilter);
      found.Success? ==>
        found.value == Results(Candidates(EmbeddingRows(searchId, v), VectorRowsOf(db, EmbeddingTable).value, score),
                               ContentRowsOf(db, SearchedTable).value, ResultLimit, None, NoFilter)
  {
    var after := AfterInsert(db, loc, searchId, v);
    var old_rows := At(db, loc).vrows;
    var rows := EmbeddingRows(searchId, v);
    LocatePut(db.(log := db.log + [Batched(QueryTable, |v|)]), loc, VectorTable(old_rows + rows), QueryTable);
    assert VectorRowsOf(after, QueryTable) == Success(old_rows + rows);
    JoinedTablesUntouched(db, loc, searchId, v);
    RowsOfNone(old_rows, searchId);
    RowsOfAll(rows, searchId);
    RowsOfAppend(old_rows, rows, searchId);
    assert [] + rows == rows;
  }

  /** The cleanup after a successful query takes the vector's rows out again, leaving every table as it was. */
  lemma CleanupRestores(db: Db, loc: Location, searchId: string, v: seq<real>)
    requires QueryTableAt(db, loc) && FreshId(db, loc, searchId)
    ensures var cleaned := DeleteWhere(AfterInsert(db, loc, searchId, v), QueryTable, "doc_id", searchId);
      cleaned.1 == Success(|v|) && cleaned.0.tables == db.tables && cleaned.0.temp == db.temp &&
      cleaned.0.log == db.log + [Batched(QueryTable, |v|), Deleted(QueryTable, "doc_id", searchId)]
  {
    var old_rows := At(db, loc).vrows;
    var rows := EmbeddingRows(searchId, v);
    var logged := db.(log := db.log + [Batched(QueryTable, |v|)]);
    var after := AfterInsert(db, loc, searchId, v);
    LocatePut(logged, loc, VectorTable(old_rows + rows), QueryTable);
    FreshRowsRemoved(old_rows, rows, searchId);
    var log2 := after.log + [Deleted(QueryTable, "doc_id", searchId)];
    PutLog(logged, loc, VectorTable(old_rows + rows), log2);
    PutPut(logged.(log := log2), loc, VectorTable(old_rows + rows), VectorTable(old_rows));
    PutSame(db, loc);
    PutLog(db, loc, VectorTable(old_rows), log2);
    assert db.log + [Batched(QueryTable, |v|)] + [Deleted(QueryTable, "doc_id", searchId)] ==
      db.log + [Batched(QueryTable, |v|), Deleted(QueryTable, "doc_id", searchId)];
  }

  /**
   * With "temptable" in place and free of the search id, "ublc" and "vector_store"
   * readable, and a vector within SMALLINT indices, the search succeeds with the
   * query's matches under fresh ids, and leaves every table as it found it; it
   * sends the vector batch and the cleanup DELETE.
   */
  lemma SearchResult(db: Db, loc: Location, searchId: string, v: seq<real>, score: seq<(real, real)> -> real,
                     newId: nat -> string)
    requires QueryTableAt(db, loc) && FreshId(db, loc, searchId)
    requires |v| <= SmallintMax + 1
    requires VectorRowsOf(db, EmbeddingTable).Success? && ContentRowsOf(db, SearchedTable).Success?
    ensures Search(db, searchId, v, score, newId).1 ==
      Success(Fresh(Results(Candidates(EmbeddingRows(searchId, v), VectorRowsOf(db, EmbeddingTable).value, score),
                            ContentRowsOf(db, SearchedTable).value, ResultLimit, None, NoFilter), newId))
    ensures Search(db, searchId, v, score, newId).0.tables == db.tables
    ensures Search(db, searchId, v, score, newId).0.temp == db.temp
    ensures Search(db, searchId, v, score, newId).0.log ==
      db.log + [Batched(QueryTable, |v|), Deleted(QueryTable, "doc_id", searchId)]
  {
    InsertIntoQueryTable(db, loc, searchId, v);
    SelectAfterInsert(db, loc, searchId, v, score);
    CleanupRestores(db, loc, searchId, v);
  }

  /**
   * A successful search returns at most four documents, each carrying a text and
   * metadata stored together in "vector_store" and a fresh id, not the stored one.
   */
  lemma SearchShape(db: Db, loc: Location, searchId: string, v: seq<real>, score: seq<(real, real)> -> real,
                    newId: nat -> string)
    requires QueryTableAt(db, loc) && FreshId(db, loc, searchId)
    requires |v| <= SmallintMax + 1
    requires VectorRowsOf(db, EmbeddingTable).Success? && ContentRowsOf(db, SearchedTable).Success?
    ensures var r := Search(db, searchId, v, score, newId).1.value;
      |r| <= ResultLimit &&
      forall i :: 0 <= i < |r| ==>
        (r[i].id == newId(i) && r[i].embedding == [] &&
         exists k :: k in ContentRowsOf(db, SearchedTable).value &&
           ContentRowsOf(db, SearchedTable).value[k] == ContentRow(r[i].content, r[i].metadata))
  {
    SearchResult(db, loc, searchId, v, score, newId);
    var content := ContentRowsOf(db, SearchedTable).value;
    var cands := Candidates(EmbeddingRows(searchId, v), VectorRowsOf(db, EmbeddingTable).value, score);
    var found := Results(cands, content, ResultLimit, None, NoFilter);
    ResultsShape(cands, content, ResultLimit, None, NoFilter);
    var r := Fresh(found, newId);
    forall i | 0 <= i < |r|
      ensures exists k :: k in content && content[k] == ContentRow(r[i].content, r[i].metadata)
    {
      assert found[i] in found;
      var k := found[i].docId;
      assert k in content && content[k] == ContentRow(r[i].content, r[i].metadata);
    }
  }

  /**
   * createTemporaryTable sends nothing, so without a "temptable" of the session's
   * or of the public schema the search fails on it, whatever the vector.
   */
  lemma SearchWithoutQueryTable(db: Db, searchId: string, v: seq<real>, score: seq<(real, real)> -> real,
                                newId: nat -> string)
    requires Locate(db, QueryTable) == None
    ensures Search(db, searchId, v, score, newId) ==
      (db.(log := db.log + [Batched(QueryTable, |v|)]), Failure(UndefinedTable(QueryTable)))
  {
    var logged := db.(log := db.log + [Batched(QueryTable, |v|)]);
    assert Locate(logged, QueryTable) == None;
  }

  /**
   * Without a transaction nothing is undone: when the query fails after the
   * vector went in (here, no readable "ublc"), the vector's rows stay in "temptable".
   */
  lemma FailedQueryLeavesRows(db: Db, loc: Location, searchId: string, v: seq<real>, score: seq<(real, real)> -> real,
                              newId: nat -> string)
    requires QueryTableAt(db, loc) && FreshId(db, loc, searchId)
    requires |v| <= SmallintMax + 1
    requires VectorRowsOf(db, EmbeddingTable).Failure?
    ensures Search(db, searchId, v, score, newId).1 == Failure(VectorRowsOf(db, EmbeddingTable).error)
    ensures Exists(Search(db, searchId, v, score, newId).0, loc)
    ensures At(Search(db, searchId, v, score, newId).0, loc) == VectorTable(At(db, loc).vrows + EmbeddingRows(searchId, v))
  {
    InsertIntoQueryTable(db, loc, searchId, v);
    SelectAfterInsert(db, loc, searchId, v, score);
    var after := AfterInsert(db, loc, searchId, v);
    LocatePut(db.(log := db.log + [Batched(QueryTable, |v|)]), loc,
              VectorTable(At(db, loc).vrows + EmbeddingRows(searchId, v)), QueryTable);
    JoinedTablesUntouched(db, loc, searchId, v);
  }

  /** The search sends no DDL, whatever happens: only the vector batch, and the cleanup when the query succeeded. */
  lemma SearchSendsNoDdl(db: Db, searchId: string, v: seq<real>, score: seq<(real, real)> -> real, newId: nat -> string)
    ensures var log := Search(db, searchId, v, score, newId).0.log;
      log == db.log + [Batched(QueryTable, |v|)] ||
      log == db.log + [Batched(QueryTable, |v|), Deleted(QueryTable, "doc_id", searchId)]
  {
    var inserted := InsertVectors(db, QueryTable, EmbeddingRows(searchId, v));
    assert inserted.0.log == db.log + [Batched(QueryTable, |v|)];
    if inserted.1.Pass? {
      var found := Select(inserted.0, QueryTable, EmbeddingTable, SearchedTable, searchId, ResultLimit, None, score, NoFilter);
      if found.Success? {
        assert DeleteWhere(inserted.0, QueryTable, "doc_id", searchId).0.log ==
          inserted.0.log + [Deleted(QueryTable, "doc_id", searchId)];
        assert db.log + [Batched(QueryTable, |v|)] + [Deleted(QueryTable, "doc_id", searchId)] ==
          db.log + [Batched(QueryTable, |v|), Deleted(QueryTable, "doc_id", searchId)];
      }
    }
  }

  // ---------------------------------------------------------------------------
  // The store

  /** The store: its settings, the database behind its JdbcTemplate, and its embedding model. */
  class Store {
    const settings: Settings
    const db: Database
    const model: EmbeddingModel

    constructor (settings: Settings, db: Database, model: EmbeddingModel)
      ensures this.settings == settings && this.db == db && this.model == model
    {
      this.settings := settings;
      this.db := db;
      this.model := model;
    }

    /** afterPropertiesSet: the bootstrap statements, executed one after the other. */
    method AfterPropertiesSet() returns (o: Outcome<StoreError>)
      modifies db
      ensures (db.State(), o) == RunDdl(old(db.State()), Bootstrap(settings))
    {
      o := Pass;
      if !settings.initializeSchema {
        return;
      }
      var c0 := CreateSchemaIfNotExists(JavaText(settings.schemaName));
      var c1 := CreateContentTableIfNotExists(FullyQualifiedTableName(settings), ContentConstraint,
                                              VarcharColumn(MetadataLimit));
      var c2 := CreateEmbeddingTableIfNotExists(EmbeddingTable);
      assert Bootstrap(settings) == [c0] + ([c1] + [c2]);
      RunDdlCons(db.State(), c0, [c1] + [c2]);
      o := db.Execute(c0);
      if o.Fail? {
        return;
      }
      RunDdlCons(db.State(), c1, [c2]);
      o := db.Execute(c1);
      if o.Fail? {
        return;
      }
      RunDdlCons(db.State(), c2, []);
      assert [c2] == [c2] + [];
      o := db.Execute(c2);
    }

    /** doAdd: one call of the embedding model, then the batches into <schema>.<table> and "ublc". */
    method DoAdd(documents: seq<Document>) returns (o: Outcome<StoreError>)
      requires settings.maxDocumentBatchSize != 0 || |documents| == 0
      modifies db, model
      ensures model.calls == old(model.calls) + [EmbedDocuments(documents)]
      ensures (db.State(), o) == Added(settings, old(db.State()), WithEmbeddings(documents, model.vectorOf))
    {
      var embedded := model.EmbedAll(documents);
      o := AddDocuments(db, FullyQualifiedTableName(settings), EmbeddingTable, embedded, settings.maxDocumentBatchSize);
    }

    /**
     * doSimilaritySearch: the query is embedded, then the statements run one by
     * one. searchId stands for the random UUID, score for what the database
     * computes and newId for the ids the result documents draw.
     */
    method DoSimilaritySearch(query: string, searchId: string, score: seq<(real, real)> -> real, newId: nat -> string)
      returns (r: Result<seq<Document>, StoreError>)
      modifies db, model
      ensures model.calls == old(model.calls) + [EmbedQuery(query)]
      ensures (db.State(), r) == Search(old(db.State()), searchId, model.vectorOf(query), score, newId)
    {
      var v := model.Embed(query);
      var o := InsertOrUpdateEmbeddings(db, QueryTable, v, searchId);
      if o.Fail? {
        return Failure(o.error);
      }
      var found := Select(db.State(), QueryTable, EmbeddingTable, SearchedTable, searchId, ResultLimit, None,
                          score, NoFilter);
      if found.Failure? {
        return Failure(found.error);
      }
      var deleted := db.Delete(QueryTable, "doc_id", searchId);
      if deleted.Failure? {
        return Failure(deleted.error);
      }
      r := Success(Fresh(found.value, newId));
    }

    /** doDelete is not implemented: it answers Optional.empty and deletes nothing. */
    method DoDelete(ids: seq<string>) returns (r: Option<bool>)
      ensures r == None
    {
      r := None;
    }
  }
}
