/**
 * The Yellowbrick vector store of samples/rags/vectorstore: its configuration and
 * Builder, the schema bootstrap (afterPropertiesSet), storing documents (doAdd),
 * similarity search inside a transaction, and delete.
 */
module VectorStore {
  import opened Wrappers
  import opened Text
  import opened Engine
  import opened Documents
  import opened Batching
  import opened Naming
  import opened Ingest
  import opened Ranking
  import FilterCompiler

  /** What the constructor keeps: the base table name, the batch size, the two flags, and whether a transaction manager was given. */
  datatype Settings = Settings(base: string, maxDocumentBatchSize: int, initializeSchema: bool,
                               removeExistingVectorStoreTable: bool, hasTransactionManager: bool)

  /** The constructor's assignments: the table name defaults to "vector_store" when null or empty and is trimmed otherwise. */
  function Configured(vectorTableName: Option<string>, initializeSchema: bool, dropSchema: bool,
                      maxDocumentBatchSize: int, transactionManager: bool): (s: Settings)
    ensures s.base == BaseName(vectorTableName)
    ensures s.removeExistingVectorStoreTable == dropSchema
  {
    Settings(BaseName(vectorTableName), maxDocumentBatchSize, initializeSchema, dropSchema, transactionManager)
  }

  // ---------------------------------------------------------------------------
  // The Builder

  /** The Builder's fields; transactionManager records whether it is non-null. */
  datatype Builder = Builder(schemaName: Option<string>, vectorTableName: Option<string>,
                             vectorTableValidationsEnabled: bool, dimensions: int,
                             removeExistingVectorStoreTable: bool, initializeSchema: bool,
                             maxDocumentBatchSize: int, transactionManager: bool)

  /** new Builder(jdbcTemplate, embeddingModel): the field initialisers and the constructor's assignments. */
  function NewBuilder(): Builder
  {
    Builder(Some("public"), None, false, -1, false, false, 10000, false)
  }

  /** The Builder's with... methods that are part of this model. */
  datatype BuilderCall =
    | WithSchemaName(schemaName: Option<string>)
    | WithVectorTableName(vectorTableName: Option<string>)
    | WithVectorTableValidationsEnabled(enabled: bool)
    | WithDimensions(dimensions: int)
    | WithRemoveExistingVectorStoreTable(remove: bool)
    | WithInitializeSchema(initialize: bool)
    | WithMaxDocumentBatchSize(size: int)

  function Apply(b: Builder, call: BuilderCall): Builder
  {
    match call
    case WithSchemaName(x) => b.(schemaName := x)
    case WithVectorTableName(x) => b.(vectorTableName := x)
    case WithVectorTableValidationsEnabled(x) => b.(vectorTableValidationsEnabled := x)
    case WithDimensions(x) => b.(dimensions := x)
    case WithRemoveExistingVectorStoreTable(x) => b.(removeExistingVectorStoreTable := x)
    case WithInitializeSchema(x) => b.(initializeSchema := x)
    case WithMaxDocumentBatchSize(x) => b.(maxDocumentBatchSize := x)
  }

  /** A chain of with... calls, left to right. */
  function Configure(b: Builder, calls: seq<BuilderCall>): Builder
    decreases |calls|
  {
    if |calls| == 0 then b else Configure(Apply(b, calls[0]), calls[1..])
  }

  /** build(): the constructor called with the Builder's fields; the schema name, dimensions and validation flag are not passed on. */
  function Build(b: Builder): Settings
  {
    Configured(b.vectorTableName, b.initializeSchema, b.removeExistingVectorStoreTable, b.maxDocumentBatchSize, b.transactionManager)
  }

  /** A Builder used as it comes: table "vector_store", batches of 10000, no schema initialisation, no drop, no transaction manager. */
  lemma BuilderDefaults()
    ensures Build(NewBuilder()) == Settings(DefaultTableName, 10000, false, false, false)
  {
  }

  /** No with... call touches the transaction manager. */
  lemma {:induction false} ConfigureKeepsTransactionManager(b: Builder, calls: seq<BuilderCall>)
    ensures Configure(b, calls).transactionManager == b.transactionManager
    decreases |calls|
  {
    if |calls| > 0 {
      ConfigureKeepsTransactionManager(Apply(b, calls[0]), calls[1..]);
    }
  }

  /** Hence every store the Builder builds has no transaction manager. */
  lemma BuiltStoreHasNoTransactionManager(calls: seq<BuilderCall>)
    ensures !Build(Configure(NewBuilder(), calls)).hasTransactionManager
  {
    ConfigureKeepsTransactionManager(NewBuilder(), calls);
  }

  /** withSchemaName has no effect on the store that is built. */
  lemma SchemaNameIgnored(b: Builder, schemaName: Option<string>)
    ensures Build(Apply(b, WithSchemaName(schemaName))) == Build(b)
  {
  }

  // ---------------------------------------------------------------------------
  // Schema bootstrap (afterPropertiesSet)

  /** The content table's primary-key constraint: getTableName() + "_pk_doc_id". */
  function ContentConstraint(base: string): string
  {
    EmbeddingTableName(base) + "_pk_doc_id"
  }

  /** The statements afterPropertiesSet executes, in order. */
  function Bootstrap(s: Settings): seq<Ddl>
  {
    if !s.initializeSchema then []
    else
      (if s.removeExistingVectorStoreTable
       then [DropTableIfExists(EmbeddingTableName(s.base)), DropTableIfExists(ContentTableName(s.base))]
       else [])
      + [CreateContentTableIfNotExists(ContentTableName(s.base), ContentConstraint(s.base), JsonColumn),
         CreateEmbeddingTableIfNotExists(EmbeddingTableName(s.base))]
  }

  /**
   * The bootstrap never fails and sends exactly its statements; without
   * initializeSchema it sends nothing; with it, a DROP appears exactly when
   * removeExistingVectorStoreTable is set, and every DROP comes before every CREATE.
   */
  lemma BootstrapRuns(db: Db, s: Settings)
    ensures RunDdl(db, Bootstrap(s)).1 == Pass
    ensures RunDdl(db, Bootstrap(s)).0.log == db.log + Executions(Bootstrap(s))
    ensures !s.initializeSchema ==> RunDdl(db, Bootstrap(s)).0 == db
    ensures s.initializeSchema ==> |Bootstrap(s)| == if s.removeExistingVectorStoreTable then 4 else 2
    ensures (exists i :: 0 <= i < |Bootstrap(s)| && Bootstrap(s)[i].DropTableIfExists?)
        <==> s.initializeSchema && s.removeExistingVectorStoreTable
    ensures forall i, j :: (0 <= i < |Bootstrap(s)| && 0 <= j < |Bootstrap(s)| &&
      Bootstrap(s)[i].DropTableIfExists? && !Bootstrap(s)[j].DropTableIfExists?) ==> i < j
  {
    RunUnfailing(db, Bootstrap(s));
    assert db.log + [] == db.log;
  }

  /** The embedding and content tables of one store have different catalog names. */
  lemma QualifiedTablesDistinct(base: string)
    ensures Qualified(EmbeddingTableName(base)) != Qualified(ContentTableName(base))
  {
    if '.' in base {
      assert '.' in ContentTableName(base);
    } else {
      assert '.' !in ContentSuffix;
      assert '.' !in ContentTableName(base);
    }
  }

  /** The tables the bootstrap leaves: the catalog after the DROPs, with each table created if its name is free. */
  function BootstrapCatalog(tables: map<string, Table>, s: Settings): map<string, Table>
  {
    var e := Qualified(EmbeddingTableName(s.base));
    var c := Qualified(ContentTableName(s.base));
    var kept := if s.removeExistingVectorStoreTable then tables - {e, c} else tables;
    CreateMissing(CreateMissing(kept, c, ContentTable(map[], JsonColumn, ContentConstraint(s.base))), e, VectorTable([]))
  }

  /**
   * What the bootstrap does to the catalog: with removeExistingVectorStoreTable both
   * tables are dropped and created empty; without it an existing table is kept as
   * it is. The session's temporary tables, and every other table, are untouched.
   */
  lemma BootstrapTables(db: Db, s: Settings)
    requires s.initializeSchema
    requires s.removeExistingVectorStoreTable ==>
      EmbeddingTableName(s.base) !in db.temp && ContentTableName(s.base) !in db.temp
    ensures RunDdl(db, Bootstrap(s)).0.temp == db.temp
    ensures RunDdl(db, Bootstrap(s)).0.tables == BootstrapCatalog(db.tables, s)
  {
    var d0 := DropPhase(db, s);
    CreatePhase(d0, ContentTableName(s.base), ContentConstraint(s.base), EmbeddingTableName(s.base));
  }

  /** The DROPs of the bootstrap, when it has them: both tables leave the catalog, the session keeps its tables. */
  lemma DropPhase(db: Db, s: Settings) returns (d0: Db)
    requires s.initializeSchema
    requires s.removeExistingVectorStoreTable ==>
      EmbeddingTableName(s.base) !in db.temp && ContentTableName(s.base) !in db.temp
    ensures RunDdl(db, Bootstrap(s)) ==
      RunDdl(d0, [CreateContentTableIfNotExists(ContentTableName(s.base), ContentConstraint(s.base), JsonColumn),
                  CreateEmbeddingTableIfNotExists(EmbeddingTableName(s.base))])
    ensures d0.temp == db.temp
    ensures d0.tables == if s.removeExistingVectorStoreTable
      then db.tables - {Qualified(EmbeddingTableName(s.base)), Qualified(ContentTableName(s.base))}
      else db.tables
  {
    var e := EmbeddingTableName(s.base);
    var c := ContentTableName(s.base);
    var ds := Bootstrap(s);
    var creates := [CreateContentTableIfNotExists(c, ContentConstraint(s.base), JsonColumn), CreateEmbeddingTableIfNotExists(e)];
    d0 := db;
    if s.removeExistingVectorStoreTable {
      assert ds == [DropTableIfExists(e)] + ([DropTableIfExists(c)] + creates);
      var d1 := ApplyDdl(db, DropTableIfExists(e)).0;
      assert d1.tables == db.tables - {Qualified(e)} && d1.temp == db.temp;
      var d2 := ApplyDdl(d1, DropTableIfExists(c)).0;
      assert d2.tables == db.tables - {Qualified(e), Qualified(c)} && d2.temp == db.temp;
      RunDdlCons(db, DropTableIfExists(e), [DropTableIfExists(c)] + creates);
      RunDdlCons(d1, DropTableIfExists(c), creates);
      assert RunDdl(db, ds) == RunDdl(d1, [DropTableIfExists(c)] + creates);
      assert RunDdl(db, ds) == RunDdl(d2, creates);
      d0 := d2;
    } else {
      assert ds == [] + creates;
      assert [] + creates == creates;
    }
  }

  /** Without removeExistingVectorStoreTable a second bootstrap changes no table. */
  lemma BootstrapIdempotent(db: Db, s: Settings)
    requires s.initializeSchema && !s.removeExistingVectorStoreTable
    ensures RunDdl(RunDdl(db, Bootstrap(s)).0, Bootstrap(s)).0.tables == RunDdl(db, Bootstrap(s)).0.tables
    ensures RunDdl(RunDdl(db, Bootstrap(s)).0, Bootstrap(s)).0.temp == db.temp
  {
    BootstrapTables(db, s);
    BootstrapTables(RunDdl(db, Bootstrap(s)).0, s);
    QualifiedTablesDistinct(s.base);
  }

  /** With removeExistingVectorStoreTable both tables start out empty, whatever they held. */
  lemma BootstrapWithDropEmptiesTables(db: Db, s: Settings)
    requires s.initializeSchema && s.removeExistingVectorStoreTable
    requires EmbeddingTableName(s.base) !in db.temp && ContentTableName(s.base) !in db.temp
    ensures var t := RunDdl(db, Bootstrap(s)).0.tables;
      Qualified(EmbeddingTableName(s.base)) in t && t[Qualified(EmbeddingTableName(s.base))] == VectorTable([]) &&
      Qualified(ContentTableName(s.base)) in t &&
      t[Qualified(ContentTableName(s.base))] == ContentTable(map[], JsonColumn, ContentConstraint(s.base))
  {
    BootstrapTables(db, s);
    QualifiedTablesDistinct(s.base);
  }

  /** The number of statements whose text is exactly t (Mockito's times(n).execute(t)). */
  function CountEqual(ds: seq<Ddl>, t: string): nat
    decreases |ds|
  {
    if |ds| == 0 then 0 else (if Sql(ds[0]) == t then 1 else 0) + CountEqual(ds[1..], t)
  }

  /** The number of statements whose text contains p (times(n).execute(contains(p))). */
  ghost function CountContaining(ds: seq<Ddl>, p: string): nat
    decreases |ds|
  {
    if |ds| == 0 then 0 else (if Contains(Sql(ds[0]), p) then 1 else 0) + CountContaining(ds[1..], p)
  }

  lemma DistributionParens()
    ensures Count(DistributionClause, '(') == 2
  {
    var a := "DISTRIBUTE ON ";
    var b := "doc_id) SORT ON ";
    var c := "doc_id)";
    assert Lacks(a, '(') && Lacks(b, '(') && Lacks(c, '(');
    CountPair(a, '(', b, c);
  }

  /** The embedding table's DDL holds one '(' when the name holds none. */
  lemma EmbeddingDdlParens(n: string)
    requires Lacks(n, '(')
    ensures Count(Sql(CreateEmbeddingTableIfNotExists(n)), '(') == 1
  {
    var s0 := "   CREATE TABLE IF NOT EXISTS ";
    assert Lacks(s0, '(');
    LacksAppend(s0, n, '(');
    LacksAppend(s0 + n, " ", '(');
    LacksCount(s0 + n + " ", '(');
    var s1 := s0 + n + " " + "(";
    CountPlusOne(s0 + n + " ", '(');
    var l1 := " doc_id UUID NOT NULL,\n";
    var l2 := " embedding_id SMALLINT NOT NULL,\n";
    assert Lacks("\n", '(') && Lacks(l1, '(') && Lacks(l2, '(');
    assert Lacks(FloatColumn, '(') && Lacks(")\n", '(');
    CountLacking(s1, "\n", '(');
    CountLacking(s1 + "\n", l1, '(');
    CountLacking(s1 + "\n" + l1, l2, '(');
    CountLacking(s1 + "\n" + l1 + l2, " ", '(');
    CountLacking(s1 + "\n" + l1 + l2 + " ", FloatColumn, '(');
    CountLacking(s1 + "\n" + l1 + l2 + " " + FloatColumn, ")\n", '(');
  }

  /** The content table's DDL has no lowercase 'b' when the names have none. */
  lemma ContentDdlLacksB(n: string, c: string)
    requires Lacks(n, 'b') && Lacks(c, 'b')
    ensures Lacks(Sql(CreateContentTableIfNotExists(n, c, JsonColumn)), 'b')
  {
    var p1 := "CREATE TABLE IF NOT EXISTS ";
    var p2 := " (\n";
    var p3 := "doc_id UUID NOT NULL,\n";
    var p4 := "text VARCHAR(60000) NOT NULL,\n";
    var p5 := "CONSTRAINT ";
    var p6 := " PRIMARY KEY (doc_id))\n";
    assert Lacks(Indent, 'b');
    assert Lacks(p1, 'b');
    assert Lacks(p2, 'b');
    assert Lacks(p3, 'b');
    assert Lacks(p4, 'b');
    assert Lacks(p5, 'b');
    assert Lacks(p6, 'b');
    assert Lacks("metadata json NOT NULL,\n", 'b');
    LacksAppend(Indent, "metadata json NOT NULL,\n", 'b');
    assert Lacks("DISTRIBUTE ON ", 'b') && Lacks("(", 'b') && Lacks("doc_id) SORT ON ", 'b') && Lacks("doc_id)", 'b');
    LacksAppend("DISTRIBUTE ON ", "(", 'b');
    LacksAppend("DISTRIBUTE ON " + "(", "doc_id) SORT ON ", 'b');
    LacksAppend("DISTRIBUTE ON " + "(" + "doc_id) SORT ON ", "(", 'b');
    LacksAppend("DISTRIBUTE ON " + "(" + "doc_id) SORT ON " + "(", "doc_id)", 'b');
    var s := Indent;
    LacksAppend(s, p1, 'b'); s := s + p1;
    LacksAppend(s, n, 'b'); s := s + n;
    LacksAppend(s, p2, 'b'); s := s + p2;
    LacksAppend(s, Indent, 'b'); s := s + Indent;
    LacksAppend(s, p3, 'b'); s := s + p3;
    LacksAppend(s, Indent, 'b'); s := s + Indent;
    LacksAppend(s, p4, 'b'); s := s + p4;
    LacksAppend(s, MetadataLine(JsonColumn), 'b'); s := s + MetadataLine(JsonColumn);
    LacksAppend(s, Indent, 'b'); s := s + Indent;
    LacksAppend(s, p5, 'b'); s := s + p5;
    LacksAppend(s, c, 'b'); s := s + c;
    LacksAppend(s, p6, 'b'); s := s + p6;
    LacksAppend(s, Indent, 'b'); s := s + Indent;
    LacksAppend(s, DistributionClause, 'b'); s := s + DistributionClause;
    assert s == Sql(CreateContentTableIfNotExists(n, c, JsonColumn));
  }

  /** The settings of the unit tests: initializeSchema, removeExisting as given, batches of 1000. */
  function TestSettings(drop: bool): Settings
  {
    Build(Configure(NewBuilder(), [WithRemoveExistingVectorStoreTable(drop), WithInitializeSchema(true),
                                   WithMaxDocumentBatchSize(1000)]))
  }

  const DropEmbedding: Ddl := DropTableIfExists("vector_store")
  const DropContent: Ddl := DropTableIfExists("vector_store_content")
  const CreateContent: Ddl := CreateContentTableIfNotExists("vector_store_content", "vector_store_pk_doc_id", JsonColumn)
  const CreateEmbedding: Ddl := CreateEmbeddingTableIfNotExists("vector_store")

  /** The statements of the unit tests' store. */
  lemma TestBootstrap(drop: bool)
    ensures Bootstrap(TestSettings(drop)) ==
      (if drop then [DropEmbedding, DropContent] else []) + [CreateContent, CreateEmbedding]
  {
    TestSettingsValue(drop);
    TestNames();
  }

  lemma TestSettingsValue(drop: bool)
    ensures TestSettings(drop) == Settings(DefaultTableName, 1000, true, drop, false)
  {
    var calls := [WithRemoveExistingVectorStoreTable(drop), WithInitializeSchema(true), WithMaxDocumentBatchSize(1000)];
    assert calls[1..][1..][1..] == [];
  }

  lemma TestNames()
    ensures EmbeddingTableName(DefaultTableName) == "vector_store"
    ensures ContentTableName(DefaultTableName) == "vector_store_content"
    ensures ContentConstraint(DefaultTableName) == "vector_store_pk_doc_id"
  {
  }

  /** The DROP statements contain neither test pattern. */
  lemma DropPatterns()
    ensures Sql(DropEmbedding) == "DROP TABLE IF EXISTS vector_store"
    ensures Sql(DropContent) == "DROP TABLE IF EXISTS vector_store_content"
    ensures !Contains(Sql(DropEmbedding), FloatColumn) && !Contains(Sql(DropContent), FloatColumn)
    ensures !Contains(Sql(DropEmbedding), DistributionClause) && !Contains(Sql(DropContent), DistributionClause)
  {
    var d1 := "DROP TABLE IF EXISTS vector_store";
    var d2 := "DROP TABLE IF EXISTS vector_store_content";
    assert FloatColumn[1] == 'm';
    assert DistributionClause[14] == '(';
    assert Lacks(d1, 'm');
    assert Lacks(d2, 'm');
    assert Lacks(d1, '(');
    assert Lacks(d2, '(');
    LacksExcludes(d1, FloatColumn, 1);
    LacksExcludes(d2, FloatColumn, 1);
    LacksExcludes(d1, DistributionClause, 14);
    LacksExcludes(d2, DistributionClause, 14);
  }

  /** The content table's DDL has the distribution clause and not the FLOAT column. */
  lemma ContentPatterns()
    ensures Sql(CreateContent)[0] == ' '
    ensures !Contains(Sql(CreateContent), FloatColumn) && Contains(Sql(CreateContent), DistributionClause)
  {
    assert FloatColumn[2] == 'b';
    assert Lacks("vector_store_content", 'b');
    assert Lacks("vector_store_pk_doc_id", 'b');
    ContentDdlLacksB("vector_store_content", "vector_store_pk_doc_id");
    LacksExcludes(Sql(CreateContent), FloatColumn, 2);
    ContentDdlText("vector_store_content", "vector_store_pk_doc_id", JsonColumn);
  }

  /** The embedding table's DDL has the FLOAT column and not the distribution clause. */
  lemma EmbeddingPatterns()
    ensures Sql(CreateEmbedding)[0] == ' '
    ensures Contains(Sql(CreateEmbedding), FloatColumn) && !Contains(Sql(CreateEmbedding), DistributionClause)
  {
    EmbeddingDdlText("vector_store");
    assert Lacks("vector_store", '(');
    EmbeddingDdlParens("vector_store");
    DistributionParens();
    FewerExcludes(Sql(CreateEmbedding), DistributionClause, '(');
  }

  /**
   * initShouldInitializeDropTables: each DROP is executed once, and exactly one
   * statement names the FLOAT column and exactly one the distribution clause.
   */
  lemma InitShouldInitializeDropTables()
    ensures CountEqual(Bootstrap(TestSettings(true)), "DROP TABLE IF EXISTS vector_store") == 1
    ensures CountEqual(Bootstrap(TestSettings(true)), "DROP TABLE IF EXISTS vector_store_content") == 1
    ensures CountContaining(Bootstrap(TestSettings(true)), FloatColumn) == 1
    ensures CountContaining(Bootstrap(TestSettings(true)), DistributionClause) == 1
  {
    TestBootstrap(true);
    assert [DropEmbedding, DropContent] + [CreateContent, CreateEmbedding]
        == [DropEmbedding, DropContent, CreateContent, CreateEmbedding];
    DropCounts();
  }

  /** The CREATE statements: no DROP text, one FLOAT column, one distribution clause. */
  lemma CreateCounts()
    ensures CountEqual([CreateContent, CreateEmbedding], "DROP TABLE IF EXISTS vector_store") == 0
    ensures CountEqual([CreateContent, CreateEmbedding], "DROP TABLE IF EXISTS vector_store_content") == 0
    ensures CountContaining([CreateContent, CreateEmbedding], FloatColumn) == 1
    ensures CountContaining([CreateContent, CreateEmbedding], DistributionClause) == 1
  {
    ContentPatterns();
    EmbeddingPatterns();
    var e := "DROP TABLE IF EXISTS vector_store";
    var c := "DROP TABLE IF EXISTS vector_store_content";
    assert e[0] == 'D' && c[0] == 'D';
    CountsOfTwo(CreateContent, CreateEmbedding, e, FloatColumn);
    CountsOfTwo(CreateContent, CreateEmbedding, c, DistributionClause);
  }

  /** The four statements with the DROPs: each DROP text once, one FLOAT column, one distribution clause. */
  lemma DropCounts()
    ensures CountEqual([DropEmbedding, DropContent, CreateContent, CreateEmbedding], "DROP TABLE IF EXISTS vector_store") == 1
    ensures CountEqual([DropEmbedding, DropContent, CreateContent, CreateEmbedding], "DROP TABLE IF EXISTS vector_store_content") == 1
    ensures CountContaining([DropEmbedding, DropContent, CreateContent, CreateEmbedding], FloatColumn) == 1
    ensures CountContaining([DropEmbedding, DropContent, CreateContent, CreateEmbedding], DistributionClause) == 1
  {
    CreateCounts();
    DropPatterns();
    var e := "DROP TABLE IF EXISTS vector_store";
    var c := "DROP TABLE IF EXISTS vector_store_content";
    assert Sql(DropContent) != e && Sql(DropEmbedding) != c by {
      assert |c| != |e|;
    }
    CountsOfFour(DropEmbedding, DropContent, CreateContent, CreateEmbedding, e, FloatColumn);
    CountsOfFour(DropEmbedding, DropContent, CreateContent, CreateEmbedding, c, DistributionClause);
  }

  lemma CountCons(x: Ddl, rest: seq<Ddl>, t: string, p: string)
    ensures CountEqual([x] + rest, t) == (if Sql(x) == t then 1 else 0) + CountEqual(rest, t)
    ensures CountContaining([x] + rest, p) == (if Contains(Sql(x), p) then 1 else 0) + CountContaining(rest, p)
  {
    assert ([x] + rest)[1..] == rest;
  }

  lemma CountsOfTwo(a: Ddl, b: Ddl, t: string, p: string)
    ensures CountEqual([a, b], t) == (if Sql(a) == t then 1 else 0) + (if Sql(b) == t then 1 else 0)
    ensures CountContaining([a, b], p) == (if Contains(Sql(a), p) then 1 else 0) + (if Contains(Sql(b), p) then 1 else 0)
  {
    assert [a, b] == [a] + [b];
    assert [b] == [b] + [];
    CountCons(a, [b], t, p);
    CountCons(b, [], t, p);
  }

  lemma CountsOfFour(a: Ddl, b: Ddl, c: Ddl, d: Ddl, t: string, p: string)
    ensures CountEqual([a, b, c, d], t) ==
      (if Sql(a) == t then 1 else 0) + (if Sql(b) == t then 1 else 0) + CountEqual([c, d], t)
    ensures CountContaining([a, b, c, d], p) ==
      (if Contains(Sql(a), p) then 1 else 0) + (if Contains(Sql(b), p) then 1 else 0) + CountContaining([c, d], p)
  {
    assert [a, b, c, d] == [a] + [b, c, d];
    assert [b, c, d] == [b] + [c, d];
    CountCons(a, [b, c, d], t, p);
    CountCons(b, [c, d], t, p);
  }

  /** initShouldInitializeNotDropTables: no DROP is executed; each CREATE once. */
  lemma InitShouldInitializeNotDropTables()
    ensures CountEqual(Bootstrap(TestSettings(false)), "DROP TABLE IF EXISTS vector_store") == 0
    ensures CountEqual(Bootstrap(TestSettings(false)), "DROP TABLE IF EXISTS vector_store_content") == 0
    ensures CountContaining(Bootstrap(TestSettings(false)), FloatColumn) == 1
    ensures CountContaining(Bootstrap(TestSettings(false)), DistributionClause) == 1
  {
    TestBootstrap(false);
    assert [] + [CreateContent, CreateEmbedding] == [CreateContent, CreateEmbedding];
    CreateCounts();
  }

  // ---------------------------------------------------------------------------
  // Storing documents (doAdd)

  /** doAdd on the store's two tables with its batch size. */
  function Added(s: Settings, db: Db, documents: seq<Document>): (Db, Outcome<StoreError>)
  {
    StoreDocuments(db, ContentTableName(s.base), EmbeddingTableName(s.base), documents, s.maxDocumentBatchSize)
  }

  /** Both tables of the store exist, of the right kind, where their names resolve. */
  predicate TablesAt(s: Settings, db: Db, loc: Location, cloc: Location)
  {
    VectorTableAt(db, EmbeddingTableName(s.base), loc) && ContentTableAt(db, ContentTableName(s.base), cloc)
  }

  /**
   * shouldAddDocumentsInBatchesAndEmbedOnce: a store built with batches of 1000
   * sends 9989 documents as ten content batches, nine of 1000 and one of 989.
   */
  lemma ShouldAddDocumentsInBatches(db: Db, documents: seq<Document>, loc: Location, cloc: Location)
    requires |documents| == 9989
    requires TablesAt(Build(Configure(NewBuilder(), [WithMaxDocumentBatchSize(1000)])), db, loc, cloc)
    requires FitsSmallint(documents)
    requires AddedContent(At(db, cloc), documents).Success?
    ensures var s := Build(Configure(NewBuilder(), [WithMaxDocumentBatchSize(1000)]));
      var sent := BatchSizes(Added(s, db, documents).0.log, ContentTableName(s.base));
      var before := BatchSizes(db.log, ContentTableName(s.base));
      |sent| == |before| + 10 &&
      (forall k :: |before| <= k < |before| + 9 ==> sent[k] == 1000) && sent[|before| + 9] == 989
  {
    var s := Build(Configure(NewBuilder(), [WithMaxDocumentBatchSize(1000)]));
    assert [WithMaxDocumentBatchSize(1000)][1..] == [];
    assert s.maxDocumentBatchSize == 1000;
    TableNamesDistinct(s.base);
    StoreBatchSizes(db, ContentTableName(s.base), EmbeddingTableName(s.base), documents, 1000, loc, cloc);
    PartitionOf9989By1000(documents);
  }

  // ---------------------------------------------------------------------------
  // Similarity search (doSimilaritySearch)

  /** The native filter: the converter's output, or "" without a filter expression. */
  function NativeFilter(filter: Option<FilterCompiler.Expr>): string
  {
    match filter
    case None => ""
    case Some(e) => FilterCompiler.Compile(e)
  }

  /** getDocuments' WHERE condition: "1=1" immediately followed by the filter clause. */
  function Where(native: string): Option<string>
  {
    Some("1=1" + FilterClause(native))
  }

  /** A rollback: every table is as before the transaction; what was sent stays sent. */
  function RolledBack(before: Db, after: Db): Db
  {
    after.(tables := before.tables, temp := before.temp)
  }

  /**
   * The transaction of doSimilaritySearch on the database, given the query's vector
   * and the search document id: create the ON COMMIT DROP query table, insert the
   * vector, run the query, delete the vector, commit. An exception anywhere rolls
   * the transaction back; without a transaction manager nothing reaches the database.
   */
  function Search(s: Settings, db: Db, topK: nat, native: string, searchId: string, v: seq<real>,
                  score: seq<(real, real)> -> real, holds: (string, string) -> bool): (Db, Result<seq<Found>, StoreError>)
  {
    if !s.hasTransactionManager then (db, Failure(NoTransactionManager))
    else
      var q := QueryTableName(s.base);
      var created := ApplyDdl(db, CreateTemporaryTable(q));
      if created.1.Fail? then (RolledBack(db, created.0), Failure(created.1.error))
      else
        var inserted := InsertVectors(created.0, q, EmbeddingRows(searchId, v));
        if inserted.1.Fail? then (RolledBack(db, inserted.0), Failure(inserted.1.error))
        else Finish(s, db, inserted.0, searchId,
                    Select(inserted.0, q, EmbeddingTableName(s.base), ContentTableName(s.base), searchId, topK,
                           Where(native), score, holds))
  }

  /** The end of the transaction once the query has run: cleanUpTempTable, then commit. */
  function Finish(s: Settings, db: Db, inserted: Db, searchId: string,
                  found: Result<seq<Found>, StoreError>): (Db, Result<seq<Found>, StoreError>)
  {
    var q := QueryTableName(s.base);
    match found
    case Failure(e) => (RolledBack(db, inserted), Failure(e))
    case Success(r) =>
      var cleaned := DeleteWhere(inserted, q, "doc_id", searchId);
      if cleaned.1.Failure? then (RolledBack(db, cleaned.0), Failure(cleaned.1.error))
      else (cleaned.0.(temp := cleaned.0.temp - {q}), Success(r))
  }

  /** The database once the query table is created and holds the vector. */
  function QueryTableAfterInsert(s: Settings, db: Db, searchId: string, v: seq<real>): Db
  {
    var q := QueryTableName(s.base);
    db.(temp := db.temp[q := VectorTable(EmbeddingRows(searchId, v))],
        log := db.log + [Executed(CreateTemporaryTable(q)), Batched(q, |v|)])
  }

  /** A search can start when its query table can be created: its name is unqualified and not yet in the session. */
  predicate QueryTableFree(s: Settings, db: Db)
  {
    '.' !in QueryTableName(s.base) && QueryTableName(s.base) !in db.temp
  }

  /** Creating the query table and inserting the vector: the table holds exactly the vector's rows. */
  lemma CreateAndInsert(s: Settings, db: Db, searchId: string, v: seq<real>)
    requires QueryTableFree(s, db)
    requires |v| <= SmallintMax + 1
    ensures var q := QueryTableName(s.base);
      var created := ApplyDdl(db, CreateTemporaryTable(q));
      created.1 == Pass &&
      InsertVectors(created.0, q, EmbeddingRows(searchId, v)) == (QueryTableAfterInsert(s, db, searchId, v), Pass)
  {
    var q := QueryTableName(s.base);
    var rows := EmbeddingRows(searchId, v);
    var created := ApplyDdl(db, CreateTemporaryTable(q));
    assert created.0 == db.(temp := db.temp[q := VectorTable([])], log := db.log + [Executed(CreateTemporaryTable(q))]);
    assert SmallintIndices(rows);
    assert [] + rows == rows;
    if |rows| > 0 {
      assert Locate(created.0, q) == Some(InTemp(q));
      assert At(created.0, InTemp(q)) == VectorTable([]);
      var logged := created.0.(log := created.0.log + [Batched(q, |rows|)]);
      assert InsertVectors(created.0, q, rows) == (Put(logged, InTemp(q), VectorTable([] + rows)), Pass);
      assert created.0.temp[q := VectorTable(rows)] == db.temp[q := VectorTable(rows)];
      assert created.0.log + [Batched(q, |rows|)] == db.log + [Executed(CreateTemporaryTable(q)), Batched(q, |v|)];
    } else {
      assert rows == [];
      assert created.0.log + [Batched(q, 0)] == db.log + [Executed(CreateTemporaryTable(q)), Batched(q, |v|)];
    }
  }

  /** Tables other than the query table read the same after it is created and filled. */
  lemma OtherTablesRead(s: Settings, db: Db, searchId: string, v: seq<real>, name: string)
    requires name != QueryTableName(s.base)
    ensures VectorRowsOf(QueryTableAfterInsert(s, db, searchId, v), name) == VectorRowsOf(db, name)
    ensures ContentRowsOf(QueryTableAfterInsert(s, db, searchId, v), name) == ContentRowsOf(db, name)
  {
  }

  /** A search whose query table could be created and filled ends in Finish. */
  lemma SearchReachesQuery(s: Settings, db: Db, topK: nat, native: string, searchId: string, v: seq<real>,
                           score: seq<(real, real)> -> real, holds: (string, string) -> bool)
    requires s.hasTransactionManager && QueryTableFree(s, db) && |v| <= SmallintMax + 1
    ensures var after := QueryTableAfterInsert(s, db, searchId, v);
      Search(s, db, topK, native, searchId, v, score, holds) ==
      Finish(s, db, after, searchId,
             Select(after, QueryTableName(s.base), EmbeddingTableName(s.base), ContentTableName(s.base), searchId, topK,
                    Where(native), score, holds))
  {
    CreateAndInsert(s, db, searchId, v);
  }

  /** Whatever the query returns, the transaction's end leaves the tables as they were before it began. */
  lemma FinishKeepsTables(s: Settings, db: Db, searchId: string, v: seq<real>, found: Result<seq<Found>, StoreError>)
    requires QueryTableFree(s, db)
    ensures Finish(s, db, QueryTableAfterInsert(s, db, searchId, v), searchId, found).0.tables == db.tables
    ensures Finish(s, db, QueryTableAfterInsert(s, db, searchId, v), searchId, found).0.temp == db.temp
  {
    var q := QueryTableName(s.base);
    var after := QueryTableAfterInsert(s, db, searchId, v);
    assert Locate(after, q) == Some(InTemp(q));
    assert after.temp - {q} == db.temp;
  }

  /**
   * A search changes no table, persistent or temporary, whatever happens: the
   * query table is dropped at commit or rolled back, and the vector rows with it.
   */
  lemma SearchKeepsTables(s: Settings, db: Db, topK: nat, native: string, searchId: string, v: seq<real>,
                          score: seq<(real, real)> -> real, holds: (string, string) -> bool)
    ensures Search(s, db, topK, native, searchId, v, score, holds).0.tables == db.tables
    ensures Search(s, db, topK, native, searchId, v, score, holds).0.temp == db.temp
  {
    if !s.hasTransactionManager || !QueryTableFree(s, db) {
      SearchFailsEarly(s, db, topK, native, searchId, v, score, holds);
    } else if |v| <= SmallintMax + 1 {
      QueryKeepsTables(s, db, topK, native, searchId, v, score, holds);
    } else {
      SearchTooLong(s, db, topK, native, searchId, v, score, holds);
    }
  }

  /** Without a transaction manager, or when the query table cannot be created, the search ends before any row is written. */
  lemma SearchFailsEarly(s: Settings, db: Db, topK: nat, native: string, searchId: string, v: seq<real>,
                         score: seq<(real, real)> -> real, holds: (string, string) -> bool)
    requires !s.hasTransactionManager || !QueryTableFree(s, db)
    ensures Search(s, db, topK, native, searchId, v, score, holds).1.Failure?
    ensures Search(s, db, topK, native, searchId, v, score, holds).0.tables == db.tables
    ensures Search(s, db, topK, native, searchId, v, score, holds).0.temp == db.temp
  {
    if s.hasTransactionManager {
      assert ApplyDdl(db, CreateTemporaryTable(QueryTableName(s.base))).1.Fail?;
    }
  }

  lemma QueryKeepsTables(s: Settings, db: Db, topK: nat, native: string, searchId: string, v: seq<real>,
                         score: seq<(real, real)> -> real, holds: (string, string) -> bool)
    requires s.hasTransactionManager && QueryTableFree(s, db) && |v| <= SmallintMax + 1
    ensures Search(s, db, topK, native, searchId, v, score, holds).0.tables == db.tables
    ensures Search(s, db, topK, native, searchId, v, score, holds).0.temp == db.temp
  {
    SearchReachesQuery(s, db, topK, native, searchId, v, score, holds);
    var after := QueryTableAfterInsert(s, db, searchId, v);
    FinishKeepsTables(s, db, searchId, v,
      Select(after, QueryTableName(s.base), EmbeddingTableName(s.base), ContentTableName(s.base), searchId, topK,
             Where(native), score, holds));
  }

  /** A vector longer than the SMALLINT indices allow fails its insert, and the transaction rolls back. */
  lemma SearchTooLong(s: Settings, db: Db, topK: nat, native: string, searchId: string, v: seq<real>,
                      score: seq<(real, real)> -> real, holds: (string, string) -> bool)
    requires s.hasTransactionManager && QueryTableFree(s, db) && |v| > SmallintMax + 1
    ensures Search(s, db, topK, native, searchId, v, score, holds).1 == Failure(NumericOutOfRange)
    ensures Search(s, db, topK, native, searchId, v, score, holds).0.tables == db.tables
    ensures Search(s, db, topK, native, searchId, v, score, holds).0.temp == db.temp
  {
    var q := QueryTableName(s.base);
    var rows := EmbeddingRows(searchId, v);
    var created := ApplyDdl(db, CreateTemporaryTable(q));
    assert Locate(created.0, q) == Some(InTemp(q));
    assert rows[SmallintMax + 1].index == SmallintMax + 1;
    assert !SmallintIndices(rows);
  }

  /** How the query's outcome decides the end of the transaction, and what it sends. */
  lemma FinishLog(s: Settings, db: Db, searchId: string, v: seq<real>, found: Result<seq<Found>, StoreError>)
    requires QueryTableFree(s, db)
    ensures Finish(s, db, QueryTableAfterInsert(s, db, searchId, v), searchId, found).1 == found
    ensures found.Success? ==>
      Finish(s, db, QueryTableAfterInsert(s, db, searchId, v), searchId, found).0.log ==
      db.log + [Executed(CreateTemporaryTable(QueryTableName(s.base))), Batched(QueryTableName(s.base), |v|),
                Deleted(QueryTableName(s.base), "doc_id", searchId)]
  {
    var q := QueryTableName(s.base);
    assert Locate(QueryTableAfterInsert(s, db, searchId, v), q) == Some(InTemp(q));
  }

  /**
   * A successful search sends the CREATE TEMPORARY TABLE, one batch of |v| rows
   * into the query table, and the DELETE of the search id's rows, in that order.
   */
  lemma SearchLog(s: Settings, db: Db, topK: nat, native: string, searchId: string, v: seq<real>,
                  score: seq<(real, real)> -> real, holds: (string, string) -> bool)
    requires Search(s, db, topK, native, searchId, v, score, holds).1.Success?
    ensures Search(s, db, topK, native, searchId, v, score, holds).0.log ==
      db.log + [Executed(CreateTemporaryTable(QueryTableName(s.base))), Batched(QueryTableName(s.base), |v|),
                Deleted(QueryTableName(s.base), "doc_id", searchId)]
  {
    SearchSuccessPath(s, db, topK, native, searchId, v, score, holds);
    SearchReachesQuery(s, db, topK, native, searchId, v, score, holds);
    var after := QueryTableAfterInsert(s, db, searchId, v);
    FinishLog(s, db, searchId, v,
      Select(after, QueryTableName(s.base), EmbeddingTableName(s.base), ContentTableName(s.base), searchId, topK,
             Where(native), score, holds));
  }

  /** A search succeeds only with a transaction manager, a free query table name and a vector that fits. */
  lemma SearchSuccessPath(s: Settings, db: Db, topK: nat, native: string, searchId: string, v: seq<real>,
                          score: seq<(real, real)> -> real, holds: (string, string) -> bool)
    requires Search(s, db, topK, native, searchId, v, score, holds).1.Success?
    ensures s.hasTransactionManager && QueryTableFree(s, db) && |v| <= SmallintMax + 1
  {
    if !s.hasTransactionManager || !QueryTableFree(s, db) {
      SearchFailsEarly(s, db, topK, native, searchId, v, score, holds);
    }
    if |v| > SmallintMax + 1 {
      SearchTooLong(s, db, topK, native, searchId, v, score, holds);
    }
  }

  /**
   * What a successful search returns: the query run on the store's own tables with
   * the search vector as the query row set, under the WHERE condition of the native
   * filter.
   */
  lemma SearchResult(s: Settings, db: Db, topK: nat, native: string, searchId: string, v: seq<real>,
                     score: seq<(real, real)> -> real, holds: (string, string) -> bool)
    requires Search(s, db, topK, native, searchId, v, score, holds).1.Success?
    ensures VectorRowsOf(db, EmbeddingTableName(s.base)).Success?
    ensures ContentRowsOf(db, ContentTableName(s.base)).Success?
    ensures Search(s, db, topK, native, searchId, v, score, holds).1.value ==
      Results(Candidates(EmbeddingRows(searchId, v), VectorRowsOf(db, EmbeddingTableName(s.base)).value, score),
              ContentRowsOf(db, ContentTableName(s.base)).value, topK, Where(native), holds)
  {
    SearchSuccessPath(s, db, topK, native, searchId, v, score, holds);
    SearchReachesQuery(s, db, topK, native, searchId, v, score, holds);
    var after := QueryTableAfterInsert(s, db, searchId, v);
    var found := Select(after, QueryTableName(s.base), EmbeddingTableName(s.base), ContentTableName(s.base), searchId, topK,
                        Where(native), score, holds);
    FinishLog(s, db, searchId, v, found);
    SelectAfterInsert(s, db, topK, native, searchId, v, score, holds);
  }

  /** The query on the filled query table is the query on the store's tables with the vector's rows. */
  lemma SelectAfterInsert(s: Settings, db: Db, topK: nat, native: string, searchId: string, v: seq<real>,
                          score: seq<(real, real)> -> real, holds: (string, string) -> bool)
    requires QueryTableFree(s, db)
    ensures var after := QueryTableAfterInsert(s, db, searchId, v);
      var found := Select(after, QueryTableName(s.base), EmbeddingTableName(s.base), ContentTableName(s.base), searchId, topK,
                          Where(native), score, holds);
      found.Success? ==>
        VectorRowsOf(db, EmbeddingTableName(s.base)).Success? && ContentRowsOf(db, ContentTableName(s.base)).Success? &&
        found.value ==
          Results(Candidates(EmbeddingRows(searchId, v), VectorRowsOf(db, EmbeddingTableName(s.base)).value, score),
                  ContentRowsOf(db, ContentTableName(s.base)).value, topK, Where(native), holds)
    ensures var after := QueryTableAfterInsert(s, db, searchId, v);
      VectorRowsOf(db, EmbeddingTableName(s.base)).Success? && ContentRowsOf(db, ContentTableName(s.base)).Success? ==>
      Select(after, QueryTableName(s.base), EmbeddingTableName(s.base), ContentTableName(s.base), searchId, topK,
             Where(native), score, holds).Success?
  {
    var q := QueryTableName(s.base);
    var after := QueryTableAfterInsert(s, db, searchId, v);
    TableNamesDistinct(s.base);
    OtherTablesRead(s, db, searchId, v, EmbeddingTableName(s.base));
    OtherTablesRead(s, db, searchId, v, ContentTableName(s.base));
    assert VectorRowsOf(after, q) == Success(EmbeddingRows(searchId, v));
    Ranking.RowsOfAll(EmbeddingRows(searchId, v), searchId);
  }

  /**
   * The shape of every successful search's results: at most topK documents, best
   * score first, each with its stored content and metadata, which satisfy the filter.
   */
  lemma SearchShape(s: Settings, db: Db, topK: nat, native: string, searchId: string, v: seq<real>,
                    score: seq<(real, real)> -> real, holds: (string, string) -> bool)
    requires Search(s, db, topK, native, searchId, v, score, holds).1.Success?
    ensures var r := Search(s, db, topK, native, searchId, v, score, holds).1.value;
      var content := ContentRowsOf(db, ContentTableName(s.base));
      |r| <= topK && SortedDesc(r, FoundKey) &&
      forall f :: f in r ==>
        WhereHolds(Where(native), f.metadata, holds) && content.Success? &&
        f.docId in content.value && content.value[f.docId] == ContentRow(f.text, f.metadata)
  {
    SearchResult(s, db, topK, native, searchId, v, score, holds);
    var cands := Candidates(EmbeddingRows(searchId, v), VectorRowsOf(db, EmbeddingTableName(s.base)).value, score);
    ResultsShape(cands, ContentRowsOf(db, ContentTableName(s.base)).value, topK, Where(native), holds);
  }

  /**
   * With the store's tables in place, a query table name free in the session and a
   * vector within SMALLINT indices, a search with a transaction manager succeeds.
   */
  lemma SearchSucceeds(s: Settings, db: Db, topK: nat, native: string, searchId: string, v: seq<real>,
                       score: seq<(real, real)> -> real, holds: (string, string) -> bool)
    requires s.hasTransactionManager
    requires QueryTableFree(s, db)
    requires |v| <= SmallintMax + 1
    requires VectorRowsOf(db, EmbeddingTableName(s.base)).Success?
    requires ContentRowsOf(db, ContentTableName(s.base)).Success?
    ensures Search(s, db, topK, native, searchId, v, score, holds).1.Success?
  {
    SearchReachesQuery(s, db, topK, native, searchId, v, score, holds);
    SelectAfterInsert(s, db, topK, native, searchId, v, score, holds);
    var after := QueryTableAfterInsert(s, db, searchId, v);
    FinishLog(s, db, searchId, v,
      Select(after, QueryTableName(s.base), EmbeddingTableName(s.base), ContentTableName(s.base), searchId, topK,
             Where(native), score, holds));
  }

  /** Without a transaction manager the search fails before anything is sent. */
  lemma SearchNeedsTransactionManager(s: Settings, db: Db, topK: nat, native: string, searchId: string, v: seq<real>,
                                      score: seq<(real, real)> -> real, holds: (string, string) -> bool)
    requires !s.hasTransactionManager
    ensures Search(s, db, topK, native, searchId, v, score, holds) == (db, Failure(NoTransactionManager))
  {
  }

  /** Without a filter expression the WHERE condition is "1=1", which every row satisfies. */
  lemma NoFilterKeepsEveryRow(metadata: string, holds: (string, string) -> bool)
    ensures Where(NativeFilter(None)) == Some("1=1")
    ensures WhereHolds(Where(NativeFilter(None)), metadata, holds)
  {
    assert !HasText("");
    assert "1=1" + "" == "1=1";
  }

  /** With a filter the condition is "1=1AND (" + native + ")": no space follows "1=1". */
  lemma FilterAppendedWithoutSpace(native: string)
    requires HasText(native)
    ensures Where(native) == Some("1=1AND (" + native + ")")
  {
    assert "1=1" + ("AND (" + native + ")") == "1=1AND (" + native + ")";
  }

  /**
   * Every store the Builder builds fails every search: build() passes the
   * Builder's transactionManager, which no with... method sets.
   */
  lemma BuiltStoreCannotSearch(calls: seq<BuilderCall>, db: Db, topK: nat, native: string, searchId: string,
                               v: seq<real>, score: seq<(real, real)> -> real, holds: (string, string) -> bool)
    ensures Search(Build(Configure(NewBuilder(), calls)), db, topK, native, searchId, v, score, holds)
         == (db, Failure(NoTransactionManager))
  {
    BuiltStoreHasNoTransactionManager(calls);
  }

  /** build() as intended: the store receives the transaction manager given to the Builder. */
  function BuildWithTransactionManager(b: Builder, transactionManager: bool): (s: Settings)
    ensures s.hasTransactionManager == transactionManager
    ensures s.(hasTransactionManager := b.transactionManager) == Build(b)
  {
    Build(b.(transactionManager := transactionManager))
  }

  /** A store built with a transaction manager searches, under the conditions of SearchSucceeds. */
  lemma BuiltWithTransactionManagerSearches(calls: seq<BuilderCall>, db: Db, topK: nat, native: string,
                                            searchId: string, v: seq<real>,
                                            score: seq<(real, real)> -> real, holds: (string, string) -> bool)
    requires QueryTableFree(BuildWithTransactionManager(Configure(NewBuilder(), calls), true), db)
    requires |v| <= SmallintMax + 1
    requires VectorRowsOf(db, EmbeddingTableName(BuildWithTransactionManager(Configure(NewBuilder(), calls), true).base)).Success?
    requires ContentRowsOf(db, ContentTableName(BuildWithTransactionManager(Configure(NewBuilder(), calls), true).base)).Success?
    ensures Search(BuildWithTransactionManager(Configure(NewBuilder(), calls), true), db, topK, native, searchId, v, score, holds).1.Success?
  {
    SearchSucceeds(BuildWithTransactionManager(Configure(NewBuilder(), calls), true), db, topK, native, searchId, v, score, holds);
  }

  // ---------------------------------------------------------------------------
  // Delete (doDelete)

  /**
   * The stream of doDelete: "DELETE FROM <table> WHERE <column> = ?" for each id in
   * turn, counting the ids that removed exactly one row; the first exception ends it.
   */
  function DeleteWith(db: Db, table: string, column: string, ids: seq<string>): (Db, Result<nat, StoreError>)
    decreases |ids|
  {
    if |ids| == 0 then (db, Success(0))
    else
      var step := DeleteWhere(db, table, column, ids[0]);
      match step.1
      case Failure(e) => (step.0, Failure(e))
      case Success(n) =>
        var rest := DeleteWith(step.0, table, column, ids[1..]);
        match rest.1
        case Failure(e) => rest
        case Success(m) => (rest.0, Success((if n == 1 then 1 else 0) + m))
  }

  /** One id of the stream, and the count carried on to the rest. */
  lemma DeleteWithStep(db: Db, table: string, column: string, ids: seq<string>, counted: nat)
    requires |ids| > 0
    ensures var step := DeleteWhere(db, table, column, ids[0]);
      CountedAfter(DeleteWith(db, table, column, ids), counted) ==
      match step.1
      case Failure(e) => (step.0, Failure(e))
      case Success(n) => CountedAfter(DeleteWith(step.0, table, column, ids[1..]), counted + (if n == 1 then 1 else 0))
  {
  }

  /** doDelete as written: the id column of the embedding table; the count only reaches the log, the answer is Optional.of(true). */
  function DeleteAsWritten(s: Settings, db: Db, ids: seq<string>): (Db, Result<Option<bool>, StoreError>)
  {
    var r := DeleteWith(db, EmbeddingTableName(s.base), "id", ids);
    (r.0, match r.1 case Failure(e) => Failure(e) case Success(_) => Success(Some(true)))
  }

  /**
   * No table has an id column, so doDelete of any non-empty list fails on its first
   * id and deletes nothing; only the empty list answers true.
   */
  lemma DeleteAsWrittenFails(s: Settings, db: Db, ids: seq<string>)
    ensures |ids| == 0 ==> DeleteAsWritten(s, db, ids) == (db, Success(Some(true)))
    ensures |ids| > 0 ==>
      DeleteAsWritten(s, db, ids).1.Failure? &&
      DeleteAsWritten(s, db, ids).1.error in {UndefinedColumn("id"), UndefinedTable(EmbeddingTableName(s.base))} &&
      DeleteAsWritten(s, db, ids).0 == db.(log := db.log + [Deleted(EmbeddingTableName(s.base), "id", ids[0])])
  {
  }

  /** The ids that remove a content row, one after the other: each id counts once, when it is present. */
  function DeletedCount(rows: map<string, ContentRow>, ids: seq<string>): nat
    decreases |ids|
  {
    if |ids| == 0 then 0
    else (if ids[0] in rows then 1 else 0) + DeletedCount(rows - {ids[0]}, ids[1..])
  }

  lemma {:induction false} DeletedCountBound(rows: map<string, ContentRow>, ids: seq<string>)
    ensures DeletedCount(rows, ids) <= |ids|
    decreases |ids|
  {
    if |ids| > 0 {
      DeletedCountBound(rows - {ids[0]}, ids[1..]);
    }
  }

  /** Every id deletes a row exactly when the ids are all present and pairwise distinct. */
  lemma {:induction false} DeletedCountAll(rows: map<string, ContentRow>, ids: seq<string>)
    ensures DeletedCount(rows, ids) == |ids| <==>
      (forall i :: 0 <= i < |ids| ==> ids[i] in rows) && (forall i, j :: 0 <= i < j < |ids| ==> ids[i] != ids[j])
    decreases |ids|
  {
    if |ids| > 0 {
      var rest := rows - {ids[0]};
      DeletedCountAll(rest, ids[1..]);
      DeletedCountBound(rest, ids[1..]);
      assert forall i :: 1 <= i < |ids| ==> ids[i] == ids[1..][i - 1];
      if DeletedCount(rows, ids) == |ids| {
        forall i, j | 0 <= i < j < |ids| ensures ids[i] != ids[j] {
          if i > 0 {
            assert ids[1..][i - 1] != ids[1..][j - 1];
          } else {
            assert ids[1..][j - 1] in rest;
          }
        }
      }
    }
  }

  /** The set of the ids in a list. */
  function IdSet(ids: seq<string>): (r: set<string>)
    ensures forall k :: k in r <==> exists i :: 0 <= i < |ids| && ids[i] == k
  {
    set i | 0 <= i < |ids| :: ids[i]
  }

  /**
   * doDelete as intended by its own to-do note: each id's content row and embedding
   * rows are deleted by doc_id, and the answer is true exactly when every id
   * removed a document.
   */
  function DeleteDocuments(s: Settings, db: Db, ids: seq<string>): (Db, Result<Option<bool>, StoreError>)
  {
    var r := DeleteBoth(db, ContentTableName(s.base), EmbeddingTableName(s.base), ids);
    (r.0, match r.1 case Failure(e) => Failure(e) case Success(n) => Success(Some(n == |ids|)))
  }

  /** For each id: delete its content row, then its embedding rows; count the content rows removed. */
  function DeleteBoth(db: Db, contentTable: string, embeddingTable: string, ids: seq<string>): (Db, Result<nat, StoreError>)
    decreases |ids|
  {
    if |ids| == 0 then (db, Success(0))
    else
      var c := DeleteWhere(db, contentTable, "doc_id", ids[0]);
      match c.1
      case Failure(e) => (c.0, Failure(e))
      case Success(n) =>
        var e := DeleteWhere(c.0, embeddingTable, "doc_id", ids[0]);
        match e.1
        case Failure(err) => (e.0, Failure(err))
        case Success(_) =>
          var rest := DeleteBoth(e.0, contentTable, embeddingTable, ids[1..]);
          match rest.1
          case Failure(err) => rest
          case Success(m) => (rest.0, Success(n + m))
  }

  /** The content rows left after deleting ids. */
  function ContentWithout(t: Table, ids: seq<string>): Table
    requires t.ContentTable?
  {
    ContentTable(t.rows - IdSet(ids), t.metadataColumn, t.constraint)
  }

  /** One id of the corrected delete: its content row and its embedding rows go, and nothing else. */
  lemma DeleteOneEffect(db: Db, contentTable: string, embeddingTable: string, k: string, loc: Location, cloc: Location)
    returns (after: Db)
    requires VectorTableAt(db, embeddingTable, loc) && ContentTableAt(db, contentTable, cloc)
    ensures var c := DeleteWhere(db, contentTable, "doc_id", k);
      c.1 == Success(if k in At(db, cloc).rows then 1 else 0) &&
      DeleteWhere(c.0, embeddingTable, "doc_id", k).1.Success? &&
      DeleteWhere(c.0, embeddingTable, "doc_id", k).0 == after
    ensures VectorTableAt(after, embeddingTable, loc) && ContentTableAt(after, contentTable, cloc)
    ensures At(after, cloc) == ContentTable(At(db, cloc).rows - {k}, At(db, cloc).metadataColumn, At(db, cloc).constraint)
    ensures At(after, loc) == VectorTable(RowsWithout(At(db, loc).vrows, k))
    ensures after.tables.Keys == db.tables.Keys && after.temp.Keys == db.temp.Keys
  {
    var t := At(db, cloc);
    var ct := ContentTable(t.rows - {k}, t.metadataColumn, t.constraint);
    var logged := db.(log := db.log + [Deleted(contentTable, "doc_id", k)]);
    var c := DeleteWhere(db, contentTable, "doc_id", k);
    assert loc != cloc;
    assert c.0 == Put(logged, cloc, ct);
    LocatePut(logged, cloc, ct, embeddingTable);
    PutOther(logged, cloc, ct, loc);
    var vt := At(c.0, loc);
    var kept := VectorTable(RowsWithout(vt.vrows, k));
    var logged2 := c.0.(log := c.0.log + [Deleted(embeddingTable, "doc_id", k)]);
    after := Put(logged2, loc, kept);
    assert DeleteWhere(c.0, embeddingTable, "doc_id", k).0 == after;
    LocatePut(logged2, loc, kept, contentTable);
    PutOther(logged2, loc, kept, cloc);
  }

  lemma IdSetCons(ids: seq<string>)
    requires |ids| > 0
    ensures IdSet(ids) == {ids[0]} + IdSet(ids[1..])
  {
    forall x ensures x in IdSet(ids) <==> x == ids[0] || x in IdSet(ids[1..]) {
      if x in IdSet(ids) && x != ids[0] {
        var i :| 0 <= i < |ids| && ids[i] == x;
        assert ids[1..][i - 1] == x;
      }
      if x in IdSet(ids[1..]) {
        var i :| 0 <= i < |ids[1..]| && ids[1..][i] == x;
        assert ids[i + 1] == x;
      }
    }
  }

  /**
   * The tables after the corrected delete of ids: both still in place, no
   * content row and no embedding row of the ids left, every other row kept.
   */
  ghost predicate IdsDeleted(db: Db, after: Db, contentTable: string, embeddingTable: string, ids: seq<string>,
                       loc: Location, cloc: Location)
  {
    VectorTableAt(db, embeddingTable, loc) && ContentTableAt(db, contentTable, cloc) &&
    VectorTableAt(after, embeddingTable, loc) && ContentTableAt(after, contentTable, cloc) &&
    At(after, cloc) == ContentWithout(At(db, cloc), ids) &&
    (forall x :: x in At(after, loc).vrows <==> x in At(db, loc).vrows && x.docId !in IdSet(ids)) &&
    after.tables.Keys == db.tables.Keys && after.temp.Keys == db.temp.Keys
  }

  /**
   * With both tables in place the corrected delete succeeds: the answer counts the
   * documents removed, no content row and no embedding row of the ids remains, and
   * every other row stays.
   */
  lemma {:induction false} DeleteBothEffect(db: Db, contentTable: string, embeddingTable: string, ids: seq<string>,
                                            loc: Location, cloc: Location)
    requires VectorTableAt(db, embeddingTable, loc) && ContentTableAt(db, contentTable, cloc)
    ensures DeleteBoth(db, contentTable, embeddingTable, ids).1 == Success(DeletedCount(At(db, cloc).rows, ids))
    ensures IdsDeleted(db, DeleteBoth(db, contentTable, embeddingTable, ids).0, contentTable, embeddingTable, ids, loc, cloc)
    decreases |ids|
  {
    if |ids| == 0 {
      assert At(db, cloc).rows - IdSet(ids) == At(db, cloc).rows;
    } else {
      var t := At(db, cloc);
      var mid := DeleteBothCons(db, contentTable, embeddingTable, ids, loc, cloc);
      var rest := DeleteBoth(mid, contentTable, embeddingTable, ids[1..]);
      DeleteBothEffect(mid, contentTable, embeddingTable, ids[1..], loc, cloc);
      ContentWithoutStep(t, ids);
      IdsDeletedStep(db, mid, rest.0, contentTable, embeddingTable, ids, loc, cloc);
    }
  }

  /** The first id's DELETEs, then those of the rest, delete the whole list. */
  lemma IdsDeletedStep(db: Db, mid: Db, after: Db, contentTable: string, embeddingTable: string, ids: seq<string>,
                       loc: Location, cloc: Location)
    requires |ids| > 0
    requires VectorTableAt(db, embeddingTable, loc) && ContentTableAt(db, contentTable, cloc)
    requires VectorTableAt(mid, embeddingTable, loc) && ContentTableAt(mid, contentTable, cloc)
    requires At(mid, cloc) == ContentTable(At(db, cloc).rows - {ids[0]}, At(db, cloc).metadataColumn, At(db, cloc).constraint)
    requires At(mid, loc) == VectorTable(RowsWithout(At(db, loc).vrows, ids[0]))
    requires mid.tables.Keys == db.tables.Keys && mid.temp.Keys == db.temp.Keys
    requires IdsDeleted(mid, after, contentTable, embeddingTable, ids[1..], loc, cloc)
    ensures IdsDeleted(db, after, contentTable, embeddingTable, ids, loc, cloc)
  {
    ContentWithoutStep(At(db, cloc), ids);
    VectorRowsStep(At(db, loc).vrows, At(after, loc).vrows, ids);
  }

  /** The corrected delete of a non-empty list: the first id's two DELETEs, then the rest. */
  lemma DeleteBothCons(db: Db, contentTable: string, embeddingTable: string, ids: seq<string>,
                       loc: Location, cloc: Location) returns (mid: Db)
    requires |ids| > 0
    requires VectorTableAt(db, embeddingTable, loc) && ContentTableAt(db, contentTable, cloc)
    ensures VectorTableAt(mid, embeddingTable, loc) && ContentTableAt(mid, contentTable, cloc)
    ensures At(mid, cloc) == ContentTable(At(db, cloc).rows - {ids[0]}, At(db, cloc).metadataColumn, At(db, cloc).constraint)
    ensures At(mid, loc) == VectorTable(RowsWithout(At(db, loc).vrows, ids[0]))
    ensures mid.tables.Keys == db.tables.Keys && mid.temp.Keys == db.temp.Keys
    ensures var rest := DeleteBoth(mid, contentTable, embeddingTable, ids[1..]);
      rest.1.Success? ==>
      DeleteBoth(db, contentTable, embeddingTable, ids) ==
        (rest.0, Success((if ids[0] in At(db, cloc).rows then 1 else 0) + rest.1.value))
  {
    mid := DeleteOneEffect(db, contentTable, embeddingTable, ids[0], loc, cloc);
  }

  /** Removing the first id, then the rest, removes the whole list. */
  lemma ContentWithoutStep(t: Table, ids: seq<string>)
    requires t.ContentTable? && |ids| > 0
    ensures ContentWithout(ContentTable(t.rows - {ids[0]}, t.metadataColumn, t.constraint), ids[1..]) == ContentWithout(t, ids)
    ensures DeletedCount(t.rows, ids) == (if ids[0] in t.rows then 1 else 0) + DeletedCount(t.rows - {ids[0]}, ids[1..])
  {
    IdSetCons(ids);
    assert t.rows - {ids[0]} - IdSet(ids[1..]) == t.rows - IdSet(ids);
  }

  /** The embedding rows left after the first id and then the rest are those of no id of the list. */
  lemma VectorRowsStep(before: seq<VectorRow>, after: seq<VectorRow>, ids: seq<string>)
    requires |ids| > 0
    requires forall x :: x in after <==> x in RowsWithout(before, ids[0]) && x.docId !in IdSet(ids[1..])
    ensures forall x :: x in after <==> x in before && x.docId !in IdSet(ids)
  {
    IdSetCons(ids);
  }

  /**
   * The corrected doDelete answers true exactly when the ids are pairwise distinct
   * and each names a stored document, and afterwards none of them remains in
   * either table.
   */
  lemma DeleteDocumentsEffect(s: Settings, db: Db, ids: seq<string>, loc: Location, cloc: Location)
    requires TablesAt(s, db, loc, cloc)
    ensures var r := DeleteDocuments(s, db, ids);
      r.1.Success? && r.1.value.Some? &&
      (r.1.value.value <==>
        (forall i :: 0 <= i < |ids| ==> ids[i] in At(db, cloc).rows) &&
        (forall i, j :: 0 <= i < j < |ids| ==> ids[i] != ids[j]))
    ensures var after := DeleteDocuments(s, db, ids).0;
      Exists(after, loc) && Exists(after, cloc) && At(after, cloc).ContentTable? && At(after, loc).VectorTable? &&
      (forall i :: 0 <= i < |ids| ==> ids[i] !in At(after, cloc).rows) &&
      (forall x :: x in At(after, loc).vrows ==> x.docId !in IdSet(ids))
  {
    DeleteBothEffect(db, ContentTableName(s.base), EmbeddingTableName(s.base), ids, loc, cloc);
    DeletedCountAll(At(db, cloc).rows, ids);
  }

  // ---------------------------------------------------------------------------
  // The store object

  /** A search result row as a Document: new Document(doc_id, text, metadata), with no embedding. */
  function ToDocuments(found: seq<Found>): (r: seq<Document>)
    ensures |r| == |found|
    ensures forall i :: 0 <= i < |r| ==>
      r[i].id == found[i].docId && r[i].content == found[i].text && r[i].metadata == found[i].metadata &&
      r[i].embedding == []
  {
    seq(|found|, i requires 0 <= i < |found| => Document(found[i].docId, found[i].text, found[i].metadata, []))
  }

  function AsDocuments(r: Result<seq<Found>, StoreError>): Result<seq<Document>, StoreError>
  {
    match r
    case Failure(e) => Failure(e)
    case Success(found) => Success(ToDocuments(found))
  }

  /** What the stream's count adds to the ids already counted. */
  function CountedAfter(x: (Db, Result<nat, StoreError>), counted: nat): (Db, Result<nat, StoreError>)
  {
    (x.0, match x.1 case Failure(e) => Failure(e) case Success(m) => Success(counted + m))
  }

  /** The store: its settings, the database behind its JdbcTemplate, and its embedding model. */
  class Store {
    const settings: Settings
    const db: Database
    const model: EmbeddingModel

    constructor (settings: Settings, db: Database, model: EmbeddingModel)
      ensures this.settings == settings && this.db == db && this.model == model
    {
      this.settings := settings;
      this.db := db;
      this.model := model;
    }

    /** afterPropertiesSet: the bootstrap statements, executed one after the other. */
    method AfterPropertiesSet() returns (o: Outcome<StoreError>)
      modifies db
      ensures (db.State(), o) == RunDdl(old(db.State()), Bootstrap(settings))
    {
      o := Pass;
      if !settings.initializeSchema {
        return;
      }
      ghost var goal := RunDdl(db.State(), Bootstrap(settings));
      var c1 := CreateContentTableIfNotExists(ContentTableName(settings.base), ContentConstraint(settings.base), JsonColumn);
      var c2 := CreateEmbeddingTableIfNotExists(EmbeddingTableName(settings.base));
      if settings.removeExistingVectorStoreTable {
        var d1 := DropTableIfExists(EmbeddingTableName(settings.base));
        var d2 := DropTableIfExists(ContentTableName(settings.base));
        assert Bootstrap(settings) == [d1] + ([d2] + [c1, c2]);
        RunDdlCons(db.State(), d1, [d2] + [c1, c2]);
        o := db.Execute(d1);
        if o.Fail? {
          return;
        }
        RunDdlCons(db.State(), d2, [c1, c2]);
        o := db.Execute(d2);
        if o.Fail? {
          return;
        }
      } else {
        assert Bootstrap(settings) == [c1, c2];
      }
      assert goal == RunDdl(db.State(), [c1] + [c2]);
      RunDdlCons(db.State(), c1, [c2]);
      o := db.Execute(c1);
      if o.Fail? {
        return;
      }
      RunDdlCons(db.State(), c2, []);
      assert [c2] == [c2] + [];
      o := db.Execute(c2);
    }

    /**
     * doAdd: one call of the embedding model for all documents, which attaches the
     * vectors; then the batches are stored in order.
     */
    method DoAdd(documents: seq<Document>) returns (o: Outcome<StoreError>)
      requires settings.maxDocumentBatchSize != 0 || |documents| == 0
      modifies db, model
      ensures model.calls == old(model.calls) + [EmbedDocuments(documents)]
      ensures (db.State(), o) == Added(settings, old(db.State()), WithEmbeddings(documents, model.vectorOf))
    {
      var embedded := model.EmbedAll(documents);
      o := AddDocuments(db, ContentTableName(settings.base), EmbeddingTableName(settings.base),
                        embedded, settings.maxDocumentBatchSize);
    }

    /**
     * doSimilaritySearch: the filter is converted and the query embedded first; the
     * rest runs in a transaction that any exception rolls back. searchId stands for
     * the random UUID, score and holds for what the database computes.
     */
    method DoSimilaritySearch(topK: nat, query: string, filter: Option<FilterCompiler.Expr>, searchId: string,
                              score: seq<(real, real)> -> real, holds: (string, string) -> bool)
      returns (r: Result<seq<Document>, StoreError>)
      modifies db, model
      ensures model.calls == old(model.calls) + [EmbedQuery(query)]
      ensures var x := Search(settings, old(db.State()), topK, NativeFilter(filter), searchId, model.vectorOf(query), score, holds);
        db.State() == x.0 && r == AsDocuments(x.1)
    {
      var native := NativeFilter(filter);
      var v := model.Embed(query);
      if !settings.hasTransactionManager {
        return Failure(NoTransactionManager);
      }
      ghost var start := db.State();
      var savedTables, savedTemp := db.tables, db.temp;
      var q := QueryTableName(settings.base);
      var o := db.Execute(CreateTemporaryTable(q));
      if o.Fail? {
        db.Rollback(savedTables, savedTemp);
        return Failure(o.error);
      }
      ghost var created := db.State();
      o := InsertOrUpdateEmbeddings(db, q, v, searchId);
      if o.Fail? {
        db.Rollback(savedTables, savedTemp);
        return Failure(o.error);
      }
      ghost var inserted := db.State();
      var found := Select(db.State(), q, EmbeddingTableName(settings.base), ContentTableName(settings.base), searchId,
                          topK, Where(native), score, holds);
      assert Search(settings, start, topK, native, searchId, v, score, holds) == Finish(settings, start, inserted, searchId, found);
      if found.Failure? {
        db.Rollback(savedTables, savedTemp);
        return Failure(found.error);
      }
      var deleted := db.Delete(q, "doc_id", searchId);
      if deleted.Failure? {
        db.Rollback(savedTables, savedTemp);
        return Failure(deleted.error);
      }
      db.Commit({q});
      r := Success(ToDocuments(found.value));
    }

    /**
     * The stream of doDelete: "DELETE FROM <table> WHERE <column> = ?" for each id
     * in turn, counting the ids that removed exactly one row.
     */
    method DeleteIds(table: string, column: string, ids: seq<string>) returns (r: Result<nat, StoreError>)
      modifies db
      ensures (db.State(), r) == DeleteWith(old(db.State()), table, column, ids)
    {
      var count: nat := 0;
      var i := 0;
      while i < |ids|
        invariant 0 <= i <= |ids|
        invariant DeleteWith(old(db.State()), table, column, ids) == CountedAfter(DeleteWith(db.State(), table, column, ids[i..]), count)
      {
        assert ids[i..][1..] == ids[i + 1..];
        DeleteWithStep(db.State(), table, column, ids[i..], count);
        var n := db.Delete(table, column, ids[i]);
        if n.Failure? {
          return Failure(n.error);
        }
        if n.value == 1 {
          count := count + 1;
        }
        i := i + 1;
      }
      r := Success(count);
    }

    /** doDelete as written: the id column of the embedding table, and Optional.of(true) unless an exception ends it. */
    method DoDelete(ids: seq<string>) returns (r: Result<Option<bool>, StoreError>)
      modifies db
      ensures (db.State(), r) == DeleteAsWritten(settings, old(db.State()), ids)
    {
      var counted := DeleteIds(EmbeddingTableName(settings.base), "id", ids);
      r := if counted.Success? then Success(Some(true)) else Failure(counted.error);
    }
  }
}
