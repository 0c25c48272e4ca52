/**
 * An in-memory model of the relational database behind the vector store: the
 * catalog of persistent tables, the session's ON COMMIT DROP temporary tables,
 * the DDL the store issues, JDBC batch inserts and keyed deletes, and a log of
 * every statement sent. Each operation is a pure function from the old database
 * value to the new one and its outcome; the Database class applies them in place.
 */
module Engine {
  import opened Wrappers
  import opened Text

  /** Unqualified names resolve to this schema (the default search path). */
  const DefaultSchema: string := "public"
  /** The content table's text column is VARCHAR(60000). */
  const TextLimit: nat := 60000
  /** The embedding_id columns are SMALLINT. */
  const SmallintMin: int := -32768
  const SmallintMax: int := 32767

  /** One row of an embedding table: (doc_id, embedding_id, embedding). */
  datatype VectorRow = VectorRow(docId: string, index: int, value: real)

  /** The non-key columns of a content table row: (text, metadata). */
  datatype ContentRow = ContentRow(text: string, metadata: string)

  /** The metadata column is `json` in one schema and VARCHAR(n) in the other. */
  datatype MetadataColumn = JsonColumn | VarcharColumn(limit: nat)

  datatype Table =
    | ContentTable(rows: map<string, ContentRow>, metadataColumn: MetadataColumn, constraint: string)
    | VectorTable(vrows: seq<VectorRow>)

  datatype StoreError =
    | UndefinedTable(name: string)
    | UndefinedColumn(column: string)
    | DuplicateKey(constraint: string)
    | DuplicateTable(name: string)
    | TemporaryTableInSchema(name: string)
    | ValueTooLong(column: string)
    | NumericOutOfRange
    | NoTransactionManager
    | InvalidBatchSize(size: int)

  /**
   * What the store sent to the database, in order: a DDL statement through
   * jdbcTemplate.execute (its text is Sql(ddl)), a JDBC batch insert of `size`
   * rows, or a keyed DELETE.
   */
  datatype Statement =
    | Executed(ddl: Ddl)
    | Batched(table: string, size: nat)
    | Deleted(table: string, column: string, key: string)

  datatype Db = Db(tables: map<string, Table>, temp: map<string, Table>, log: seq<Statement>)

  /** Where an unqualified or qualified name resolves. */
  datatype Location = InTemp(name: string) | InCatalog(name: string)

  function Qualified(name: string): string
  {
    if '.' in name then name else DefaultSchema + "." + name
  }

  predicate Exists(db: Db, loc: Location)
  {
    match loc
    case InTemp(n) => n in db.temp
    case InCatalog(n) => n in db.tables
  }

  /** Name resolution: an unqualified name finds a temporary table first. */
  function Locate(db: Db, name: string): (r: Option<Location>)
    ensures r.Some? ==> Exists(db, r.value)
    ensures r.None? <==> ('.' in name || name !in db.temp) && Qualified(name) !in db.tables
  {
    if '.' !in name && name in db.temp then Some(InTemp(name))
    else if Qualified(name) in db.tables then Some(InCatalog(Qualified(name)))
    else None
  }

  function At(db: Db, loc: Location): Table
    requires Exists(db, loc)
  {
    match loc
    case InTemp(n) => db.temp[n]
    case InCatalog(n) => db.tables[n]
  }

  function Put(db: Db, loc: Location, t: Table): (r: Db)
    ensures r.log == db.log
    ensures Exists(r, loc) && At(r, loc) == t
  {
    match loc
    case InTemp(n) => db.(temp := db.temp[n := t])
    case InCatalog(n) => db.(tables := db.tables[n := t])
  }

  /** Replacing a table's contents does not change how names resolve. */
  lemma LocatePut(db: Db, loc: Location, t: Table, name: string)
    requires Exists(db, loc)
    ensures Locate(Put(db, loc, t), name) == Locate(db, name)
  {
  }

  lemma PutPut(db: Db, loc: Location, t: Table, u: Table)
    ensures Put(Put(db, loc, t), loc, u) == Put(db, loc, u)
  {
  }

  lemma PutLog(db: Db, loc: Location, t: Table, log: seq<Statement>)
    ensures Put(db.(log := log), loc, t) == Put(db, loc, t).(log := log)
  {
  }

  lemma PutOther(db: Db, loc: Location, t: Table, other: Location)
    requires Exists(db, other) && other != loc
    ensures Exists(Put(db, loc, t), other) && At(Put(db, loc, t), other) == At(db, other)
  {
  }

  lemma PutTwice(db: Db, l1: Location, l2: Location, a: Table, b: Table, a2: Table, b2: Table, log: seq<Statement>)
    requires l1 != l2
    ensures Put(Put(Put(Put(db, l1, a), l2, b).(log := log), l1, a2), l2, b2) == Put(Put(db, l1, a2), l2, b2).(log := log)
  {
  }

  lemma PutTwiceRelog(db: Db, l1: Location, l2: Location, a: Table, b: Table, a2: Table, b2: Table,
                      log1: seq<Statement>, log2: seq<Statement>)
    requires l1 != l2
    ensures Put(Put(Put(Put(db, l1, a), l2, b).(log := log1), l1, a2), l2, b2).(log := log2)
         == Put(Put(db, l1, a2), l2, b2).(log := log2)
  {
  }

  lemma PutSame(db: Db, loc: Location)
    requires Exists(db, loc)
    ensures Put(db, loc, At(db, loc)) == db
  {
  }

  // ---------------------------------------------------------------------------
  // DDL

  datatype Ddl =
    | CreateSchemaIfNotExists(schema: string)
    | DropTableIfExists(name: string)
    | CreateContentTableIfNotExists(name: string, constraint: string, metadataColumn: MetadataColumn)
    | CreateEmbeddingTableIfNotExists(name: string)
    | CreateTemporaryTable(name: string)

  /** The sixteen-space indentation of the content table's DDL lines. */
  const Indent: string := "                "
  /** The content table's distribution and sort clause. */
  const DistributionClause: string := "DISTRIBUTE ON " + "(" + "doc_id) SORT ON " + "(" + "doc_id)"
  /** The embedding table's vector column. */
  const FloatColumn: string := "embedding FLOAT NOT NULL"

  function MetadataLine(m: MetadataColumn): string
  {
    match m
    case JsonColumn => Indent + "metadata json NOT NULL,\n"
    case VarcharColumn(n) => Indent + "metadata VARCHAR(" + NatText(n) + ") NOT NULL,\n"
  }

  function NatText(n: nat): string
    decreases n
  {
    if n < 10 then ["0123456789"[n]] else NatText(n / 10) + ["0123456789"[n % 10]]
  }

  /** The text of each statement, as the store formats it. */
  function Sql(d: Ddl): string
  {
    match d
    case CreateSchemaIfNotExists(s) => "CREATE SCHEMA IF NOT EXISTS " + s
    case DropTableIfExists(n) => "DROP TABLE IF EXISTS " + n
    case CreateContentTableIfNotExists(n, c, m) =>
      Indent + "CREATE TABLE IF NOT EXISTS " + n + " (\n"
      + Indent + "doc_id UUID NOT NULL,\n"
      + Indent + "text VARCHAR(60000) NOT NULL,\n"
      + MetadataLine(m)
      + Indent + "CONSTRAINT " + c + " PRIMARY KEY (doc_id))\n"
      + Indent + DistributionClause
    case CreateEmbeddingTableIfNotExists(n) =>
      "   CREATE TABLE IF NOT EXISTS " + n + " " + "(" + "\n"
      + " doc_id UUID NOT NULL,\n"
      + " embedding_id SMALLINT NOT NULL,\n"
      + " " + FloatColumn + ")\n"
    case CreateTemporaryTable(n) =>
      " CREATE TEMPORARY TABLE  " + n + " ( \n"
      + "     doc_id UUID,\n"
      + "     embedding_id SMALLINT,\n"
      + "      embedding FLOAT)\n"
      + "  ON COMMIT DROP\n"
      + "  DISTRIBUTE REPLICATE\n"
  }

  /** The embedding table's DDL names its FLOAT column. */
  lemma EmbeddingDdlText(n: string)
    ensures Contains(Sql(CreateEmbeddingTableIfNotExists(n)), FloatColumn)
  {
    var a := "   CREATE TABLE IF NOT EXISTS " + n + " " + "(" + "\n" + " doc_id UUID NOT NULL,\n"
      + " embedding_id SMALLINT NOT NULL,\n" + " ";
    ContainsPiece(a, FloatColumn, ")\n");
  }

  /** The content table's DDL ends with its distribution and sort clause. */
  lemma ContentDdlText(n: string, c: string, m: MetadataColumn)
    ensures Contains(Sql(CreateContentTableIfNotExists(n, c, m)), DistributionClause)
  {
    var a := Indent + "CREATE TABLE IF NOT EXISTS " + n + " (\n"
      + Indent + "doc_id UUID NOT NULL,\n"
      + Indent + "text VARCHAR(60000) NOT NULL,\n"
      + MetadataLine(m)
      + Indent + "CONSTRAINT " + c + " PRIMARY KEY (doc_id))\n"
      + Indent;
    ContainsPiece(a, DistributionClause, "");
    assert a + DistributionClause + "" == a + DistributionClause;
  }

  /** CREATE TABLE IF NOT EXISTS on a catalog: the table is added only when the name is free. */
  function CreateMissing(tables: map<string, Table>, name: string, t: Table): (r: map<string, Table>)
    ensures name in r && (name in tables ==> r[name] == tables[name]) && (name !in tables ==> r[name] == t)
    ensures forall k :: k != name ==> (k in r <==> k in tables) && (k in tables ==> r[k] == tables[k])
  {
    if name in tables then tables else tables[name := t]
  }

  /**
   * The effect of one DDL statement. The statement is logged whatever its outcome.
   * IF [NOT] EXISTS forms never fail; CREATE TEMPORARY TABLE fails on a
   * schema-qualified name (temporary tables live in the session's own schema) and
   * on a name the session already holds.
   */
  function ApplyDdl(db: Db, d: Ddl): (Db, Outcome<StoreError>)
  {
    var logged := db.(log := db.log + [Executed(d)]);
    match d
    case CreateSchemaIfNotExists(_) => (logged, Pass)
    case DropTableIfExists(n) =>
      (match Locate(db, n)
       case None => (logged, Pass)
       case Some(InTemp(t)) => (logged.(temp := db.temp - {t}), Pass)
       case Some(InCatalog(t)) => (logged.(tables := db.tables - {t}), Pass))
    case CreateContentTableIfNotExists(n, c, m) =>
      if Qualified(n) in db.tables then (logged, Pass)
      else (logged.(tables := db.tables[Qualified(n) := ContentTable(map[], m, c)]), Pass)
    case CreateEmbeddingTableIfNotExists(n) =>
      if Qualified(n) in db.tables then (logged, Pass)
      else (logged.(tables := db.tables[Qualified(n) := VectorTable([])]), Pass)
    case CreateTemporaryTable(n) =>
      if '.' in n then (logged, Fail(TemporaryTableInSchema(n)))
      else if n in db.temp then (logged, Fail(DuplicateTable(n)))
      else (logged.(temp := db.temp[n := VectorTable([])]), Pass)
  }

  /** jdbcTemplate.execute of each statement in turn; the first failure stops the sequence. */
  function RunDdl(db: Db, ds: seq<Ddl>): (Db, Outcome<StoreError>)
    decreases |ds|
  {
    if |ds| == 0 then (db, Pass)
    else
      var step := ApplyDdl(db, ds[0]);
      if step.1.Fail? then step else RunDdl(step.0, ds[1..])
  }

  /** The first statement of a sequence, then the rest unless it failed. */
  lemma RunDdlCons(db: Db, d: Ddl, ds: seq<Ddl>)
    ensures RunDdl(db, [d] + ds) ==
      if ApplyDdl(db, d).1.Fail? then ApplyDdl(db, d) else RunDdl(ApplyDdl(db, d).0, ds)
  {
    assert ([d] + ds)[1..] == ds;
  }

  /** The statements sent for a DDL sequence, in order. */
  function Executions(ds: seq<Ddl>): (r: seq<Statement>)
    ensures |r| == |ds|
    ensures forall i :: 0 <= i < |ds| ==> r[i] == Executed(ds[i])
  {
    seq(|ds|, i requires 0 <= i < |ds| => Executed(ds[i]))
  }

  /** A statement that cannot fail: DROP TABLE IF EXISTS or CREATE ... IF NOT EXISTS. */
  predicate Unfailing(d: Ddl)
  {
    d.DropTableIfExists? || CreateIfNotExistsForm(d)
  }

  lemma UnfailingStep(db: Db, d: Ddl)
    requires Unfailing(d)
    ensures ApplyDdl(db, d).1 == Pass
    ensures ApplyDdl(db, d).0.log == db.log + [Executed(d)]
  {
  }

  /** A sequence of statements that cannot fail runs to the end and sends every statement. */
  lemma {:induction false} RunUnfailing(db: Db, ds: seq<Ddl>)
    requires forall i :: 0 <= i < |ds| ==> Unfailing(ds[i])
    ensures RunDdl(db, ds).1 == Pass
    ensures RunDdl(db, ds).0.log == db.log + Executions(ds)
    decreases |ds|
  {
    if |ds| == 0 {
      assert db.log + [] == db.log;
    } else {
      var step := ApplyDdl(db, ds[0]);
      UnfailingStep(db, ds[0]);
      RunUnfailing(step.0, ds[1..]);
      assert ds == [ds[0]] + ds[1..];
      RunDdlCons(db, ds[0], ds[1..]);
      ExecutionsCons(db.log, ds);
    }
  }

  lemma ExecutionsCons(log: seq<Statement>, ds: seq<Ddl>)
    requires |ds| > 0
    ensures log + [Executed(ds[0])] + Executions(ds[1..]) == log + Executions(ds)
  {
    assert Executions(ds) == [Executed(ds[0])] + Executions(ds[1..]);
  }

  /** A content table then an embedding table, each CREATE ... IF NOT EXISTS: each is added when its name is free. */
  lemma CreatePhase(db: Db, content: string, constraint: string, embedding: string)
    ensures RunDdl(db, [CreateContentTableIfNotExists(content, constraint, JsonColumn),
                        CreateEmbeddingTableIfNotExists(embedding)]).0.tables ==
      CreateMissing(CreateMissing(db.tables, Qualified(content), ContentTable(map[], JsonColumn, constraint)),
                    Qualified(embedding), VectorTable([]))
    ensures RunDdl(db, [CreateContentTableIfNotExists(content, constraint, JsonColumn),
                        CreateEmbeddingTableIfNotExists(embedding)]).0.temp == db.temp
  {
    var c := CreateContentTableIfNotExists(content, constraint, JsonColumn);
    var e := CreateEmbeddingTableIfNotExists(embedding);
    var d1 := ApplyDdl(db, c).0;
    var d2 := ApplyDdl(d1, e).0;
    assert [c, e] == [c] + [e];
    assert [e] == [e] + [];
    RunDdlCons(db, c, [e]);
    RunDdlCons(d1, e, []);
  }

  predicate CreateIfNotExistsForm(d: Ddl)
  {
    d.CreateSchemaIfNotExists? || d.CreateContentTableIfNotExists? || d.CreateEmbeddingTableIfNotExists?
  }

  /** CREATE ... IF NOT EXISTS succeeds, and a second run changes no table. */
  lemma CreateIfNotExistsIdempotent(db: Db, d: Ddl)
    requires CreateIfNotExistsForm(d)
    ensures ApplyDdl(db, d).1 == Pass
    ensures ApplyDdl(ApplyDdl(db, d).0, d).1 == Pass
    ensures ApplyDdl(ApplyDdl(db, d).0, d).0.tables == ApplyDdl(db, d).0.tables
    ensures ApplyDdl(ApplyDdl(db, d).0, d).0.temp == ApplyDdl(db, d).0.temp
  {
  }

  /** DROP TABLE IF EXISTS never fails and removes exactly the table the name resolves to. */
  lemma DropRemovesResolved(db: Db, n: string)
    ensures ApplyDdl(db, DropTableIfExists(n)).1 == Pass
    ensures var after := ApplyDdl(db, DropTableIfExists(n)).0;
      match Locate(db, n)
      case None => after.tables == db.tables && after.temp == db.temp
      case Some(InTemp(t)) => after.tables == db.tables && t !in after.temp && after.temp.Keys == db.temp.Keys - {t}
      case Some(InCatalog(t)) => after.temp == db.temp && t !in after.tables && after.tables.Keys == db.tables.Keys - {t}
  {
  }

  /** CREATE ... IF NOT EXISTS keeps an existing table, rows included. */
  lemma CreateKeepsExisting(db: Db, d: Ddl)
    requires d.CreateContentTableIfNotExists? || d.CreateEmbeddingTableIfNotExists?
    requires Qualified(d.name) in db.tables
    ensures ApplyDdl(db, d).0.tables == db.tables
  {
  }

  /** A second CREATE TEMPORARY TABLE of the same name in one session fails. */
  lemma TemporaryTableTwice(db: Db, n: string)
    requires '.' !in n
    ensures ApplyDdl(db, CreateTemporaryTable(n)).1 == Pass <==> n !in db.temp
    ensures ApplyDdl(ApplyDdl(db, CreateTemporaryTable(n)).0, CreateTemporaryTable(n)).1 == Fail(DuplicateTable(n))
  {
  }

  // ---------------------------------------------------------------------------
  // Batch inserts

  predicate SmallintIndices(rows: seq<VectorRow>)
  {
    forall i :: 0 <= i < |rows| ==> SmallintMin <= rows[i].index <= SmallintMax
  }

  /**
   * A JDBC batch into an embedding table. An empty batch sends nothing to the
   * server and so cannot fail; otherwise the rows are appended all together or
   * not at all.
   */
  function InsertVectors(db: Db, name: string, rows: seq<VectorRow>): (Db, Outcome<StoreError>)
  {
    var logged := db.(log := db.log + [Batched(name, |rows|)]);
    if |rows| == 0 then (logged, Pass)
    else match Locate(db, name)
      case None => (logged, Fail(UndefinedTable(name)))
      case Some(loc) =>
        match At(db, loc)
        case ContentTable(_, _, _) => (logged, Fail(UndefinedColumn("embedding_id")))
        case VectorTable(vrows) =>
          if !SmallintIndices(rows) then (logged, Fail(NumericOutOfRange))
          else (Put(logged, loc, VectorTable(vrows + rows)), Pass)
  }

  predicate FitsColumns(row: ContentRow, m: MetadataColumn)
  {
    |row.text| <= TextLimit && (m.VarcharColumn? ==> |row.metadata| <= m.limit)
  }

  /** The rows of a content batch in order; the first violating row decides the error. */
  function AddContentRows(m: map<string, ContentRow>, rows: seq<(string, ContentRow)>,
                          mc: MetadataColumn, c: string): (r: Result<map<string, ContentRow>, StoreError>)
    ensures r.Success? ==> forall k :: k in m ==> k in r.value && r.value[k] == m[k]
    ensures r.Success? ==> forall i :: 0 <= i < |rows| ==> rows[i].0 !in m && rows[i].0 in r.value && r.value[rows[i].0] == rows[i].1
    ensures r.Success? ==> forall k :: k in r.value ==> k in m || exists i :: 0 <= i < |rows| && rows[i].0 == k
    decreases |rows|
  {
    if |rows| == 0 then Success(m)
    else
      var k := rows[0].0;
      var row := rows[0].1;
      if |row.text| > TextLimit then Failure(ValueTooLong("text"))
      else if mc.VarcharColumn? && |row.metadata| > mc.limit then Failure(ValueTooLong("metadata"))
      else if k in m then Failure(DuplicateKey(c))
      else
        var rest := AddContentRows(m[k := row], rows[1..], mc, c);
        assert forall i :: 1 <= i < |rows| ==> rows[i] == rows[1..][i - 1];
        rest
  }

  /** Every row fits its columns, none is already stored, and no key repeats. */
  predicate Acceptable(m: map<string, ContentRow>, rows: seq<(string, ContentRow)>, mc: MetadataColumn)
  {
    (forall i :: 0 <= i < |rows| ==> FitsColumns(rows[i].1, mc) && rows[i].0 !in m) &&
    (forall i, j :: 0 <= i < j < |rows| ==> rows[i].0 != rows[j].0)
  }

  /** A content batch succeeds exactly when its rows are acceptable. */
  lemma {:induction false} AddContentRowsSucceeds(m: map<string, ContentRow>, rows: seq<(string, ContentRow)>,
                                                  mc: MetadataColumn, c: string)
    ensures AddContentRows(m, rows, mc, c).Success? <==> Acceptable(m, rows, mc)
    decreases |rows|
  {
    if |rows| > 0 {
      AddContentRowsSucceeds(m[rows[0].0 := rows[0].1], rows[1..], mc, c);
      AcceptableCons(m, rows, mc);
    }
  }

  /** The first row is acceptable, and the rest are acceptable once it is stored. */
  lemma AcceptableCons(m: map<string, ContentRow>, rows: seq<(string, ContentRow)>, mc: MetadataColumn)
    requires |rows| > 0
    ensures Acceptable(m, rows, mc) <==>
      FitsColumns(rows[0].1, mc) && rows[0].0 !in m && Acceptable(m[rows[0].0 := rows[0].1], rows[1..], mc)
  {
    var k := rows[0].0;
    var tail := rows[1..];
    if Acceptable(m, rows, mc) {
      AcceptableTail(m, rows, mc);
    }
    if FitsColumns(rows[0].1, mc) && k !in m && Acceptable(m[k := rows[0].1], tail, mc) {
      AcceptableHead(m, rows, mc);
    }
  }

  lemma AcceptableTail(m: map<string, ContentRow>, rows: seq<(string, ContentRow)>, mc: MetadataColumn)
    requires |rows| > 0 && Acceptable(m, rows, mc)
    ensures Acceptable(m[rows[0].0 := rows[0].1], rows[1..], mc)
  {
    var tail := rows[1..];
    forall i | 0 <= i < |tail| ensures FitsColumns(tail[i].1, mc) && tail[i].0 !in m[rows[0].0 := rows[0].1] {
      assert tail[i] == rows[i + 1];
      assert rows[0].0 != rows[i + 1].0;
    }
    forall i, j | 0 <= i < j < |tail| ensures tail[i].0 != tail[j].0 {
      assert tail[i] == rows[i + 1] && tail[j] == rows[j + 1];
    }
  }

  lemma AcceptableHead(m: map<string, ContentRow>, rows: seq<(string, ContentRow)>, mc: MetadataColumn)
    requires |rows| > 0 && FitsColumns(rows[0].1, mc) && rows[0].0 !in m
    requires Acceptable(m[rows[0].0 := rows[0].1], rows[1..], mc)
    ensures Acceptable(m, rows, mc)
  {
    var tail := rows[1..];
    forall i | 0 <= i < |rows| ensures FitsColumns(rows[i].1, mc) && rows[i].0 !in m {
      if i > 0 {
        assert rows[i] == tail[i - 1];
      }
    }
    forall i, j | 0 <= i < j < |rows| ensures rows[i].0 != rows[j].0 {
      assert rows[j] == tail[j - 1];
      if i > 0 {
        assert rows[i] == tail[i - 1];
      }
    }
  }

  /** A JDBC batch into a content table, all rows or none. */
  function InsertContent(db: Db, name: string, rows: seq<(string, ContentRow)>): (Db, Outcome<StoreError>)
  {
    var logged := db.(log := db.log + [Batched(name, |rows|)]);
    if |rows| == 0 then (logged, Pass)
    else match Locate(db, name)
      case None => (logged, Fail(UndefinedTable(name)))
      case Some(loc) =>
        match At(db, loc)
        case VectorTable(_) => (logged, Fail(UndefinedColumn("text")))
        case ContentTable(m, mc, c) =>
          match AddContentRows(m, rows, mc, c)
          case Failure(e) => (logged, Fail(e))
          case Success(m') => (Put(logged, loc, ContentTable(m', mc, c)), Pass)
  }

  // ---------------------------------------------------------------------------
  // DELETE ... WHERE <column> = ?

  /** The rows whose doc_id differs from the key, in their order. */
  function RowsWithout(rows: seq<VectorRow>, key: string): (r: seq<VectorRow>)
    ensures |r| <= |rows|
    ensures forall x :: x in r <==> x in rows && x.docId != key
    decreases |rows|
  {
    if |rows| == 0 then []
    else if rows[0].docId == key then RowsWithout(rows[1..], key)
    else [rows[0]] + RowsWithout(rows[1..], key)
  }

  lemma {:induction false} RowsWithoutAppend(a: seq<VectorRow>, b: seq<VectorRow>, key: string)
    ensures RowsWithout(a + b, key) == RowsWithout(a, key) + RowsWithout(b, key)
    decreases |a|
  {
    if |a| == 0 {
      assert a + b == b;
    } else {
      assert (a + b)[1..] == a[1..] + b;
      RowsWithoutAppend(a[1..], b, key);
    }
  }

  lemma {:induction false} RowsWithoutNone(rows: seq<VectorRow>, key: string)
    requires forall i :: 0 <= i < |rows| ==> rows[i].docId != key
    ensures RowsWithout(rows, key) == rows
    decreases |rows|
  {
    if |rows| > 0 {
      RowsWithoutNone(rows[1..], key);
    }
  }

  lemma {:induction false} RowsWithoutAll(rows: seq<VectorRow>, key: string)
    requires forall i :: 0 <= i < |rows| ==> rows[i].docId == key
    ensures RowsWithout(rows, key) == []
    decreases |rows|
  {
    if |rows| > 0 {
      RowsWithoutAll(rows[1..], key);
    }
  }

  /**
   * Rows that satisfy a scratch row set's removal: appending rows that all carry a
   * fresh key and then deleting that key gives back the original rows.
   */
  lemma FreshRowsRemoved(rows: seq<VectorRow>, added: seq<VectorRow>, key: string)
    requires forall i :: 0 <= i < |rows| ==> rows[i].docId != key
    requires forall i :: 0 <= i < |added| ==> added[i].docId == key
    ensures RowsWithout(rows + added, key) == rows
  {
    RowsWithoutAppend(rows, added, key);
    RowsWithoutNone(rows, key);
    RowsWithoutAll(added, key);
  }

  /**
   * DELETE FROM name WHERE column = key. Only doc_id is a column both tables share;
   * the result is the number of rows removed.
   */
  function DeleteWhere(db: Db, name: string, column: string, key: string): (Db, Result<nat, StoreError>)
  {
    var logged := db.(log := db.log + [Deleted(name, column, key)]);
    match Locate(db, name)
    case None => (logged, Failure(UndefinedTable(name)))
    case Some(loc) =>
      if column != "doc_id" then (logged, Failure(UndefinedColumn(column)))
      else match At(db, loc)
        case VectorTable(vrows) =>
          var kept := RowsWithout(vrows, key);
          (Put(logged, loc, VectorTable(kept)), Success(|vrows| - |kept|))
        case ContentTable(m, mc, c) =>
          (Put(logged, loc, ContentTable(m - {key}, mc, c)), Success(if key in m then 1 else 0))
  }

  /** After a successful delete no row of the table carries the key, and every other row stays. */
  lemma DeleteRemovesKey(db: Db, name: string, key: string)
    requires Locate(db, name).Some? && At(db, Locate(db, name).value).VectorTable?
    ensures DeleteWhere(db, name, "doc_id", key).1.Success?
    ensures var after := At(DeleteWhere(db, name, "doc_id", key).0, Locate(db, name).value);
      after.VectorTable? &&
      forall x :: x in after.vrows <==> x in At(db, Locate(db, name).value).vrows && x.docId != key
  {
  }

  /** A WHERE on a column the table lacks fails and changes nothing but the log. */
  lemma DeleteUnknownColumn(db: Db, name: string, column: string, key: string)
    requires column != "doc_id"
    ensures DeleteWhere(db, name, column, key).1.Failure?
    ensures DeleteWhere(db, name, column, key).0.tables == db.tables
    ensures DeleteWhere(db, name, column, key).0.temp == db.temp
  {
  }

  // ---------------------------------------------------------------------------
  // The database, updated in place

  class Database {
    var tables: map<string, Table>
    var temp: map<string, Table>
    var log: seq<Statement>

    function State(): Db
      reads this
    {
      Db(tables, temp, log)
    }

    constructor (tables: map<string, Table>)
      ensures State() == Db(tables, map[], [])
    {
      this.tables := tables;
      this.temp := map[];
      this.log := [];
    }

    method Load(db: Db)
      modifies this
      ensures State() == db
    {
      tables, temp, log := db.tables, db.temp, db.log;
    }

    method Execute(d: Ddl) returns (o: Outcome<StoreError>)
      modifies this
      ensures (State(), o) == ApplyDdl(old(State()), d)
    {
      var r := ApplyDdl(State(), d);
      Load(r.0);
      o := r.1;
    }

    method BatchInsertVectors(name: string, rows: seq<VectorRow>) returns (o: Outcome<StoreError>)
      modifies this
      ensures (State(), o) == InsertVectors(old(State()), name, rows)
    {
      var r := InsertVectors(State(), name, rows);
      Load(r.0);
      o := r.1;
    }

    method BatchInsertContent(name: string, rows: seq<(string, ContentRow)>) returns (o: Outcome<StoreError>)
      modifies this
      ensures (State(), o) == InsertContent(old(State()), name, rows)
    {
      var r := InsertContent(State(), name, rows);
      Load(r.0);
      o := r.1;
    }

    method Delete(name: string, column: string, key: string) returns (r: Result<nat, StoreError>)
      modifies this
      ensures (State(), r) == DeleteWhere(old(State()), name, column, key)
    {
      var x := DeleteWhere(State(), name, column, key);
      Load(x.0);
      r := x.1;
    }

    /** COMMIT: the transaction's ON COMMIT DROP tables are dropped. */
    method Commit(onCommitDrop: set<string>)
      modifies this
      ensures State() == old(State()).(temp := old(temp) - onCommitDrop)
    {
      temp := temp - onCommitDrop;
    }

    /**
     * ROLLBACK: the tables, persistent and temporary, are as they were when the
     * transaction began. What was sent stays sent.
     */
    method Rollback(savedTables: map<string, Table>, savedTemp: map<string, Table>)
      modifies this
      ensures State() == old(State()).(tables := savedTables, temp := savedTemp)
    {
      tables := savedTables;
      temp := savedTemp;
    }
  }
}
