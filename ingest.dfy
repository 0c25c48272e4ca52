/**
 * Storing documents (doAdd, insertOrUpdateContent, insertOrUpdateEmbeddings), as
 * both copies of the store do it. JdbcTemplate.batchUpdate(sql, setter) calls
 * setValues(i) for each i below getBatchSize() and then sends the collected rows;
 * the content setter inserts the document's embedding rows as a side effect, so
 * those reach the database before the content batch is sent.
 */
module Ingest {
  import opened Wrappers
  import opened Engine
  import opened Documents
  import opened Batching
  import Ranking

  /** The embedding rows of one vector: (docId, i, v[i]) for each i in [0, |v|). */
  function EmbeddingRows(docId: string, v: seq<real>): (r: seq<VectorRow>)
    ensures |r| == |v|
    ensures forall i :: 0 <= i < |r| ==> r[i] == VectorRow(docId, i, v[i])
  {
    seq(|v|, i requires 0 <= i < |v| => VectorRow(docId, i, v[i]))
  }

  /** The values of rows, in row order. */
  function Values(rows: seq<VectorRow>): (r: seq<real>)
    ensures |r| == |rows|
    ensures forall i :: 0 <= i < |rows| ==> r[i] == rows[i].value
  {
    seq(|rows|, i requires 0 <= i < |rows| => rows[i].value)
  }

  /**
   * Selecting a document's rows from the table and ordering them by embedding_id
   * gives back its vector: the rows are already in index order 0, 1, ..., and
   * their values are the components.
   */
  lemma VectorReconstructed(table: seq<VectorRow>, docId: string, v: seq<real>)
    requires forall i :: 0 <= i < |table| ==> table[i].docId != docId
    ensures Ranking.RowsOf(table + EmbeddingRows(docId, v), docId) == EmbeddingRows(docId, v)
    ensures forall i :: 0 <= i < |v| ==> EmbeddingRows(docId, v)[i].index == i
    ensures Values(EmbeddingRows(docId, v)) == v
  {
    var rows := EmbeddingRows(docId, v);
    Ranking.RowsOfAppend(table, rows, docId);
    Ranking.RowsOfNone(table, docId);
    Ranking.RowsOfAll(rows, docId);
    assert [] + rows == rows;
  }

  function ContentRowOf(d: Document): (string, ContentRow)
  {
    (d.id, ContentRow(d.content, d.metadata))
  }

  function ContentRows(batch: seq<Document>): (r: seq<(string, ContentRow)>)
    ensures |r| == |batch|
    ensures forall i :: 0 <= i < |batch| ==> r[i] == ContentRowOf(batch[i])
  {
    seq(|batch|, i requires 0 <= i < |batch| => ContentRowOf(batch[i]))
  }

  /** The embedding batches of a content batch, document by document; the first failure stops it. */
  function EmbedEach(db: Db, embeddingTable: string, docs: seq<Document>): (Db, Outcome<StoreError>)
    decreases |docs|
  {
    if |docs| == 0 then (db, Pass)
    else
      var step := InsertVectors(db, embeddingTable, EmbeddingRows(docs[0].id, docs[0].embedding));
      if step.1.Fail? then step else EmbedEach(step.0, embeddingTable, docs[1..])
  }

  /** insertOrUpdateContent: the documents' embedding rows, then the content batch. */
  function InsertBatch(db: Db, contentTable: string, embeddingTable: string, batch: seq<Document>): (Db, Outcome<StoreError>)
  {
    var embedded := EmbedEach(db, embeddingTable, batch);
    if embedded.1.Fail? then embedded else InsertContent(embedded.0, contentTable, ContentRows(batch))
  }

  /** batches.forEach(insertOrUpdateContent): an exception in one batch ends the loop. */
  function InsertBatches(db: Db, contentTable: string, embeddingTable: string, batches: seq<seq<Document>>): (Db, Outcome<StoreError>)
    decreases |batches|
  {
    if |batches| == 0 then (db, Pass)
    else
      var step := InsertBatch(db, contentTable, embeddingTable, batches[0]);
      if step.1.Fail? then step else InsertBatches(step.0, contentTable, embeddingTable, batches[1..])
  }

  /** insertOrUpdateEmbeddings: a batch of one row per component. */
  method InsertOrUpdateEmbeddings(db: Database, embeddingTable: string, embeddings: seq<real>, docId: string)
    returns (o: Outcome<StoreError>)
    modifies db
    ensures (db.State(), o) == InsertVectors(old(db.State()), embeddingTable, EmbeddingRows(docId, embeddings))
  {
    var rows: seq<VectorRow> := [];
    var i := 0;
    while i < |embeddings|
      invariant 0 <= i <= |embeddings|
      invariant |rows| == i
      invariant forall k :: 0 <= k < i ==> rows[k] == VectorRow(docId, k, embeddings[k])
    {
      rows := rows + [VectorRow(docId, i, embeddings[i])];
      i := i + 1;
    }
    assert rows == EmbeddingRows(docId, embeddings);
    o := db.BatchInsertVectors(embeddingTable, rows);
  }

  /** insertOrUpdateContent: setValues(i) inserts document i's embedding rows and collects its content row. */
  method InsertOrUpdateContent(db: Database, contentTable: string, embeddingTable: string, batch: seq<Document>)
    returns (o: Outcome<StoreError>)
    modifies db
    ensures (db.State(), o) == InsertBatch(old(db.State()), contentTable, embeddingTable, batch)
  {
    var rows: seq<(string, ContentRow)> := [];
    var i := 0;
    while i < |batch|
      invariant 0 <= i <= |batch|
      invariant |rows| == i
      invariant forall k :: 0 <= k < i ==> rows[k] == ContentRowOf(batch[k])
      invariant EmbedEach(old(db.State()), embeddingTable, batch) == EmbedEach(db.State(), embeddingTable, batch[i..])
    {
      var document := batch[i];
      ghost var before := db.State();
      assert batch[i..][1..] == batch[i + 1..];
      o := InsertOrUpdateEmbeddings(db, embeddingTable, document.embedding, document.id);
      if o.Fail? {
        return;
      }
      rows := rows + [ContentRowOf(document)];
      i := i + 1;
    }
    assert rows == ContentRows(batch);
    o := db.BatchInsertContent(contentTable, rows);
  }

  /** The forEach over the batches. */
  method InsertEach(db: Database, contentTable: string, embeddingTable: string, batches: seq<seq<Document>>)
    returns (o: Outcome<StoreError>)
    modifies db
    ensures (db.State(), o) == InsertBatches(old(db.State()), contentTable, embeddingTable, batches)
  {
    o := Pass;
    var i := 0;
    while i < |batches|
      invariant 0 <= i <= |batches|
      invariant InsertBatches(old(db.State()), contentTable, embeddingTable, batches)
             == InsertBatches(db.State(), contentTable, embeddingTable, batches[i..])
    {
      assert batches[i..][1..] == batches[i + 1..];
      o := InsertOrUpdateContent(db, contentTable, embeddingTable, batches[i]);
      if o.Fail? {
        return;
      }
      i := i + 1;
    }
    o := Pass;
  }

  // ---------------------------------------------------------------------------
  // The effect of storing documents

  /** Every document's embedding rows, in document order. */
  function AllEmbeddingRows(docs: seq<Document>): seq<VectorRow>
    decreases |docs|
  {
    if |docs| == 0 then [] else EmbeddingRows(docs[0].id, docs[0].embedding) + AllEmbeddingRows(docs[1..])
  }

  /** The number of vector components over all documents. */
  function TotalComponents(docs: seq<Document>): nat
    decreases |docs|
  {
    if |docs| == 0 then 0 else |docs[0].embedding| + TotalComponents(docs[1..])
  }

  /** The embedding table grows by the sum of the documents' vector lengths. */
  lemma {:induction false} AllRowsLength(docs: seq<Document>)
    ensures |AllEmbeddingRows(docs)| == TotalComponents(docs)
    decreases |docs|
  {
    if |docs| > 0 {
      AllRowsLength(docs[1..]);
    }
  }

  lemma {:induction false} AllRowsAppend(a: seq<Document>, b: seq<Document>)
    ensures AllEmbeddingRows(a + b) == AllEmbeddingRows(a) + AllEmbeddingRows(b)
    decreases |a|
  {
    if |a| == 0 {
      assert a + b == b;
    } else {
      assert (a + b)[1..] == a[1..] + b;
      AllRowsAppend(a[1..], b);
    }
  }

  /** Documents with other ids contribute no row of id. */
  lemma {:induction false} AllRowsOfOther(docs: seq<Document>, id: string)
    requires forall i :: 0 <= i < |docs| ==> docs[i].id != id
    ensures Ranking.RowsOf(AllEmbeddingRows(docs), id) == []
    decreases |docs|
  {
    if |docs| > 0 {
      AllRowsOfOther(docs[1..], id);
      Ranking.RowsOfNone(EmbeddingRows(docs[0].id, docs[0].embedding), id);
      Ranking.RowsOfAppend(EmbeddingRows(docs[0].id, docs[0].embedding), AllEmbeddingRows(docs[1..]), id);
    }
  }

  /**
   * Among documents with distinct ids, the rows carrying document k's id are
   * exactly its own embedding rows, in index order.
   */
  lemma {:induction false} AllRowsOf(docs: seq<Document>, k: nat)
    requires k < |docs|
    requires forall i, j :: 0 <= i < j < |docs| ==> docs[i].id != docs[j].id
    ensures Ranking.RowsOf(AllEmbeddingRows(docs), docs[k].id) == EmbeddingRows(docs[k].id, docs[k].embedding)
    decreases |docs|
  {
    var head := EmbeddingRows(docs[0].id, docs[0].embedding);
    Ranking.RowsOfAppend(head, AllEmbeddingRows(docs[1..]), docs[k].id);
    if k == 0 {
      Ranking.RowsOfAll(head, docs[0].id);
      AllRowsOfOther(docs[1..], docs[0].id);
      assert head + [] == head;
    } else {
      Ranking.RowsOfNone(head, docs[k].id);
      AllRowsOf(docs[1..], k - 1);
      assert docs[1..][k - 1] == docs[k];
    }
  }

  /** The embedding batches a content batch sends: one per document, sized by its vector. */
  function EmbedLog(embeddingTable: string, docs: seq<Document>): (r: seq<Statement>)
    ensures |r| == |docs|
    ensures forall i :: 0 <= i < |docs| ==> r[i] == Batched(embeddingTable, |docs[i].embedding|)
  {
    seq(|docs|, i requires 0 <= i < |docs| => Batched(embeddingTable, |docs[i].embedding|))
  }

  /** Every vector fits the SMALLINT embedding_id column. */
  predicate FitsSmallint(docs: seq<Document>)
  {
    forall i :: 0 <= i < |docs| ==> |docs[i].embedding| <= SmallintMax + 1
  }

  /** The embedding table the store writes to, resolved and of the right kind. */
  predicate VectorTableAt(db: Db, name: string, loc: Location)
  {
    Locate(db, name) == Some(loc) && At(db, loc).VectorTable?
  }

  predicate ContentTableAt(db: Db, name: string, loc: Location)
  {
    Locate(db, name) == Some(loc) && At(db, loc).ContentTable?
  }

  /**
   * With the embedding table in place and every vector within SMALLINT indices,
   * the per-document batches all succeed: the table gains every document's rows
   * in order, and each document's batch is logged.
   */
  lemma {:induction false} EmbedEachEffect(db: Db, embeddingTable: string, docs: seq<Document>, loc: Location)
    requires VectorTableAt(db, embeddingTable, loc)
    requires FitsSmallint(docs)
    ensures EmbedEach(db, embeddingTable, docs).1 == Pass
    ensures EmbedEach(db, embeddingTable, docs).0
         == Put(db, loc, VectorTable(At(db, loc).vrows + AllEmbeddingRows(docs)))
              .(log := db.log + EmbedLog(embeddingTable, docs))
    decreases |docs|
  {
    if |docs| == 0 {
      assert At(db, loc).vrows + [] == At(db, loc).vrows;
      PutSame(db, loc);
      assert db.log + [] == db.log;
    } else {
      var db1 := EmbedStep(db, embeddingTable, docs[0], loc);
      assert EmbedEach(db, embeddingTable, docs) == EmbedEach(db1, embeddingTable, docs[1..]);
      EmbedEachEffect(db1, embeddingTable, docs[1..], loc);
      EmbedLogCons(embeddingTable, docs);
      AppendTwice(db, loc, At(db, loc).vrows, EmbeddingRows(docs[0].id, docs[0].embedding), AllEmbeddingRows(docs[1..]),
                  db.log, [Batched(embeddingTable, |docs[0].embedding|)], EmbedLog(embeddingTable, docs[1..]));
    }
  }

  /** Two appends to the same table, each with its own log entries, are one append. */
  lemma AppendTwice(db: Db, loc: Location, a: seq<VectorRow>, b: seq<VectorRow>, c: seq<VectorRow>,
                    l0: seq<Statement>, l1: seq<Statement>, l2: seq<Statement>)
    ensures Put(Put(db, loc, VectorTable(a + b)).(log := l0 + l1), loc, VectorTable(a + b + c)).(log := l0 + l1 + l2)
         == Put(db, loc, VectorTable(a + (b + c))).(log := l0 + (l1 + l2))
  {
    assert a + b + c == a + (b + c);
    assert l0 + l1 + l2 == l0 + (l1 + l2);
    PutLog(Put(db, loc, VectorTable(a + b)), loc, VectorTable(a + b + c), l0 + l1);
    PutPut(db, loc, VectorTable(a + b), VectorTable(a + b + c));
  }

  lemma EmbedLogCons(embeddingTable: string, docs: seq<Document>)
    requires |docs| > 0
    ensures EmbedLog(embeddingTable, docs) == [Batched(embeddingTable, |docs[0].embedding|)] + EmbedLog(embeddingTable, docs[1..])
  {
  }

  /** One document's embedding batch into a resolved embedding table, within SMALLINT indices. */
  lemma EmbedStep(db: Db, embeddingTable: string, d: Document, loc: Location) returns (db1: Db)
    requires VectorTableAt(db, embeddingTable, loc)
    requires |d.embedding| <= SmallintMax + 1
    ensures db1 == Put(db, loc, VectorTable(At(db, loc).vrows + EmbeddingRows(d.id, d.embedding)))
                     .(log := db.log + [Batched(embeddingTable, |d.embedding|)])
    ensures InsertVectors(db, embeddingTable, EmbeddingRows(d.id, d.embedding)) == (db1, Pass)
    ensures VectorTableAt(db1, embeddingTable, loc)
    ensures At(db1, loc).vrows == At(db, loc).vrows + EmbeddingRows(d.id, d.embedding)
  {
    var rows := EmbeddingRows(d.id, d.embedding);
    var vt := VectorTable(At(db, loc).vrows + rows);
    var logged := db.(log := db.log + [Batched(embeddingTable, |rows|)]);
    db1 := Put(db, loc, vt).(log := logged.log);
    PutLog(db, loc, vt, logged.log);
    LocatePut(logged, loc, vt, embeddingTable);
    if |rows| == 0 {
      assert At(db, loc).vrows + rows == At(db, loc).vrows;
      PutSame(db, loc);
    } else {
      assert SmallintIndices(rows);
    }
  }

  lemma {:induction false} ContentRowsAppend(a: seq<Document>, b: seq<Document>)
    ensures ContentRows(a + b) == ContentRows(a) + ContentRows(b)
  {
  }

  lemma {:induction false} AddContentRowsAppend(m: map<string, ContentRow>, a: seq<(string, ContentRow)>,
                                                b: seq<(string, ContentRow)>, mc: MetadataColumn, c: string)
    ensures AddContentRows(m, a + b, mc, c) ==
      match AddContentRows(m, a, mc, c)
      case Failure(e) => Failure(e)
      case Success(m1) => AddContentRows(m1, b, mc, c)
    decreases |a|
  {
    if |a| == 0 {
      assert a + b == b;
    } else {
      assert (a + b)[0] == a[0];
      assert (a + b)[1..] == a[1..] + b;
      AddContentRowsAppend(m[a[0].0 := a[0].1], a[1..], b, mc, c);
    }
  }

  /** The content batch result for a content table. */
  function AddedContent(t: Table, batch: seq<Document>): Result<map<string, ContentRow>, StoreError>
    requires t.ContentTable?
  {
    AddContentRows(t.rows, ContentRows(batch), t.metadataColumn, t.constraint)
  }

  function ContentAfter(t: Table, batch: seq<Document>): Table
    requires t.ContentTable?
  {
    match AddedContent(t, batch)
    case Failure(_) => t
    case Success(m) => ContentTable(m, t.metadataColumn, t.constraint)
  }

  function OutcomeOf(r: Result<map<string, ContentRow>, StoreError>): Outcome<StoreError>
  {
    match r
    case Failure(e) => Fail(e)
    case Success(_) => Pass
  }

  /**
   * One content batch with both tables in place and every vector within SMALLINT
   * indices: the embedding rows of every document in the batch are appended, and
   * stay appended even when the content batch then fails; the content table gains
   * the batch's rows exactly when AddContentRows accepts them. No other table changes.
   */
  lemma InsertBatchEffect(db: Db, contentTable: string, embeddingTable: string, batch: seq<Document>,
                          loc: Location, cloc: Location)
    requires VectorTableAt(db, embeddingTable, loc) && ContentTableAt(db, contentTable, cloc)
    requires FitsSmallint(batch)
    ensures InsertBatch(db, contentTable, embeddingTable, batch) ==
      (Put(Put(db, loc, VectorTable(At(db, loc).vrows + AllEmbeddingRows(batch))), cloc, ContentAfter(At(db, cloc), batch))
         .(log := db.log + EmbedLog(embeddingTable, batch) + [Batched(contentTable, |batch|)]),
       OutcomeOf(AddedContent(At(db, cloc), batch)))
  {
    var vt := VectorTable(At(db, loc).vrows + AllEmbeddingRows(batch));
    EmbedEachEffect(db, embeddingTable, batch, loc);
    var mid := Put(db, loc, vt).(log := db.log + EmbedLog(embeddingTable, batch));
    LocatePut(db, loc, vt, contentTable);
    PutOther(db, loc, vt, cloc);
    assert ContentTableAt(mid, contentTable, cloc) && At(mid, cloc) == At(db, cloc);
    ContentBatchEffect(mid, contentTable, batch, cloc);
    PutLog(Put(db, loc, vt), cloc, ContentAfter(At(db, cloc), batch), mid.log);
  }

  /** The content batch on its own: all of the batch's rows or none, and the batch is logged. */
  lemma ContentBatchEffect(db: Db, contentTable: string, batch: seq<Document>, cloc: Location)
    requires ContentTableAt(db, contentTable, cloc)
    ensures InsertContent(db, contentTable, ContentRows(batch)) ==
      (Put(db, cloc, ContentAfter(At(db, cloc), batch)).(log := db.log + [Batched(contentTable, |batch|)]),
       OutcomeOf(AddedContent(At(db, cloc), batch)))
  {
    var t := At(db, cloc);
    var logged := db.(log := db.log + [Batched(contentTable, |batch|)]);
    PutSame(db, cloc);
    PutLog(db, cloc, t, logged.log);
    if |batch| == 0 {
      assert AddedContent(t, batch) == Success(t.rows);
    }
  }

  /** What storing the batches sends, in order, when every batch succeeds. */
  function BatchesLog(contentTable: string, embeddingTable: string, batches: seq<seq<Document>>): seq<Statement>
    decreases |batches|
  {
    if |batches| == 0 then []
    else EmbedLog(embeddingTable, batches[0]) + [Batched(contentTable, |batches[0]|)]
         + BatchesLog(contentTable, embeddingTable, batches[1..])
  }

  lemma FitsSmallintAppend(a: seq<Document>, b: seq<Document>)
    ensures FitsSmallint(a + b) <==> FitsSmallint(a) && FitsSmallint(b)
  {
    if FitsSmallint(a + b) {
      assert forall i :: 0 <= i < |a| ==> a[i] == (a + b)[i];
      assert forall i :: 0 <= i < |b| ==> b[i] == (a + b)[|a| + i];
    }
  }

  lemma StepState(db: Db, contentTable: string, embeddingTable: string, loc: Location, cloc: Location,
                  va: Table, ca: Table, log: seq<Statement>)
    requires VectorTableAt(db, embeddingTable, loc) && ContentTableAt(db, contentTable, cloc)
    requires va.VectorTable? && ca.ContentTable?
    ensures var db1 := Put(Put(db, loc, va), cloc, ca).(log := log);
      VectorTableAt(db1, embeddingTable, loc) && ContentTableAt(db1, contentTable, cloc) &&
      At(db1, loc) == va && At(db1, cloc) == ca
  {
    LocatePut(db, loc, va, embeddingTable);
    LocatePut(db, loc, va, contentTable);
    LocatePut(Put(db, loc, va), cloc, ca, embeddingTable);
    LocatePut(Put(db, loc, va), cloc, ca, contentTable);
    PutOther(Put(db, loc, va), cloc, ca, loc);
  }

  lemma ContentSplit(t: Table, b0: seq<Document>, rest: seq<Document>)
    requires t.ContentTable?
    requires AddedContent(t, b0 + rest).Success?
    ensures AddedContent(t, b0).Success?
    ensures var ca := ContentTable(AddedContent(t, b0).value, t.metadataColumn, t.constraint);
      ca == ContentAfter(t, b0) &&
      AddedContent(ca, rest).Success? && ContentAfter(ca, rest) == ContentAfter(t, b0 + rest)
  {
    ContentRowsAppend(b0, rest);
    AddContentRowsAppend(t.rows, ContentRows(b0), ContentRows(rest), t.metadataColumn, t.constraint);
  }

  /** The state after storing documents whose rows all fit, with every row logged. */
  function AllStored(db: Db, contentTable: string, embeddingTable: string, batches: seq<seq<Document>>,
                     loc: Location, cloc: Location): Db
    requires VectorTableAt(db, embeddingTable, loc) && ContentTableAt(db, contentTable, cloc)
  {
    Put(Put(db, loc, VectorTable(At(db, loc).vrows + AllEmbeddingRows(Flatten(batches)))),
        cloc, ContentAfter(At(db, cloc), Flatten(batches)))
      .(log := db.log + BatchesLog(contentTable, embeddingTable, batches))
  }

  /**
   * Storing all batches when every vector fits and the content table accepts all
   * the rows: the embedding table gains every document's rows in document order,
   * the content table gains every document's row, and nothing else changes.
   */
  lemma {:induction false} InsertBatchesEffect(db: Db, contentTable: string, embeddingTable: string,
                                               batches: seq<seq<Document>>, loc: Location, cloc: Location)
    requires VectorTableAt(db, embeddingTable, loc) && ContentTableAt(db, contentTable, cloc)
    requires FitsSmallint(Flatten(batches))
    requires AddedContent(At(db, cloc), Flatten(batches)).Success?
    ensures InsertBatches(db, contentTable, embeddingTable, batches)
         == (AllStored(db, contentTable, embeddingTable, batches, loc, cloc), Pass)
    decreases |batches|
  {
    if |batches| == 0 {
      NoBatchesStored(db, contentTable, embeddingTable, loc, cloc);
    } else {
      var db1 := FirstBatchStored(db, contentTable, embeddingTable, batches, loc, cloc);
      InsertBatchesEffect(db1, contentTable, embeddingTable, batches[1..], loc, cloc);
    }
  }

  lemma NoBatchesStored(db: Db, contentTable: string, embeddingTable: string, loc: Location, cloc: Location)
    requires VectorTableAt(db, embeddingTable, loc) && ContentTableAt(db, contentTable, cloc)
    ensures InsertBatches(db, contentTable, embeddingTable, [])
         == (AllStored(db, contentTable, embeddingTable, [], loc, cloc), Pass)
  {
    var t := At(db, cloc);
    assert At(db, loc).vrows + [] == At(db, loc).vrows;
    assert AddedContent(t, []) == Success(t.rows);
    PutSame(db, loc);
    PutSame(db, cloc);
    assert db.log + [] == db.log;
  }

  /** The state after the first batch, when every batch will succeed. */
  function AfterFirst(db: Db, contentTable: string, embeddingTable: string, b0: seq<Document>,
                      loc: Location, cloc: Location): Db
    requires VectorTableAt(db, embeddingTable, loc) && ContentTableAt(db, contentTable, cloc)
  {
    Put(Put(db, loc, VectorTable(At(db, loc).vrows + AllEmbeddingRows(b0))), cloc, ContentAfter(At(db, cloc), b0))
      .(log := db.log + EmbedLog(embeddingTable, b0) + [Batched(contentTable, |b0|)])
  }

  /**
   * The first batch is stored, leaving a state from which the remaining batches
   * can be stored as well.
   */
  lemma FirstBatchStored(db: Db, contentTable: string, embeddingTable: string,
                         batches: seq<seq<Document>>, loc: Location, cloc: Location) returns (db1: Db)
    requires |batches| > 0
    requires VectorTableAt(db, embeddingTable, loc) && ContentTableAt(db, contentTable, cloc)
    requires FitsSmallint(Flatten(batches))
    requires AddedContent(At(db, cloc), Flatten(batches)).Success?
    ensures db1 == AfterFirst(db, contentTable, embeddingTable, batches[0], loc, cloc)
    ensures VectorTableAt(db1, embeddingTable, loc) && ContentTableAt(db1, contentTable, cloc)
    ensures FitsSmallint(Flatten(batches[1..]))
    ensures AddedContent(At(db1, cloc), Flatten(batches[1..])).Success?
    ensures InsertBatches(db, contentTable, embeddingTable, batches)
         == InsertBatches(db1, contentTable, embeddingTable, batches[1..])
    ensures AllStored(db1, contentTable, embeddingTable, batches[1..], loc, cloc)
         == AllStored(db, contentTable, embeddingTable, batches, loc, cloc)
  {
    var t := At(db, cloc);
    var b0 := batches[0];
    var rest := Flatten(batches[1..]);
    assert Flatten(batches) == b0 + rest;
    var va := VectorTable(At(db, loc).vrows + AllEmbeddingRows(b0));
    var ca := ContentAfter(t, b0);
    var log1 := db.log + EmbedLog(embeddingTable, b0) + [Batched(contentTable, |b0|)];
    db1 := AfterFirst(db, contentTable, embeddingTable, b0, loc, cloc);
    assert FitsSmallint(b0) && FitsSmallint(rest) by {
      FitsSmallintAppend(b0, rest);
    }
    StepState(db, contentTable, embeddingTable, loc, cloc, va, ca, log1);
    ContentSplit(t, b0, rest);
    assert InsertBatch(db, contentTable, embeddingTable, b0) == (db1, Pass) by {
      InsertBatchEffect(db, contentTable, embeddingTable, b0, loc, cloc);
    }
    InsertBatchesStep(db, contentTable, embeddingTable, batches);
    RestStored(db, contentTable, embeddingTable, batches, loc, cloc);
  }

  lemma RestStored(db: Db, contentTable: string, embeddingTable: string,
                   batches: seq<seq<Document>>, loc: Location, cloc: Location)
    requires |batches| > 0
    requires VectorTableAt(db, embeddingTable, loc) && ContentTableAt(db, contentTable, cloc)
    requires AddedContent(At(db, cloc), Flatten(batches)).Success?
    requires VectorTableAt(AfterFirst(db, contentTable, embeddingTable, batches[0], loc, cloc), embeddingTable, loc)
    requires ContentTableAt(AfterFirst(db, contentTable, embeddingTable, batches[0], loc, cloc), contentTable, cloc)
    ensures AllStored(AfterFirst(db, contentTable, embeddingTable, batches[0], loc, cloc),
                      contentTable, embeddingTable, batches[1..], loc, cloc)
         == AllStored(db, contentTable, embeddingTable, batches, loc, cloc)
  {
    var t := At(db, cloc);
    var vrows := At(db, loc).vrows;
    var b0 := batches[0];
    var rest := Flatten(batches[1..]);
    assert Flatten(batches) == b0 + rest;
    var va := VectorTable(vrows + AllEmbeddingRows(b0));
    var ca := ContentAfter(t, b0);
    var log1 := db.log + EmbedLog(embeddingTable, b0) + [Batched(contentTable, |b0|)];
    StepState(db, contentTable, embeddingTable, loc, cloc, va, ca, log1);
    ContentSplit(t, b0, rest);
    var vfinal := VectorTable(vrows + AllEmbeddingRows(Flatten(batches)));
    RowsStep(vrows, batches);
    var logFinal := log1 + BatchesLog(contentTable, embeddingTable, batches[1..]);
    LogStep(db.log, contentTable, embeddingTable, batches);
    PutTwiceRelog(db, loc, cloc, va, ca, vfinal, ContentAfter(t, Flatten(batches)), log1, logFinal);
  }

  lemma RowsStep(vrows: seq<VectorRow>, batches: seq<seq<Document>>)
    requires |batches| > 0
    ensures vrows + AllEmbeddingRows(batches[0]) + AllEmbeddingRows(Flatten(batches[1..]))
         == vrows + AllEmbeddingRows(Flatten(batches))
  {
    assert Flatten(batches) == batches[0] + Flatten(batches[1..]);
    AllRowsAppend(batches[0], Flatten(batches[1..]));
  }

  lemma LogStep(prefix: seq<Statement>, contentTable: string, embeddingTable: string, batches: seq<seq<Document>>)
    requires |batches| > 0
    ensures prefix + EmbedLog(embeddingTable, batches[0]) + [Batched(contentTable, |batches[0]|)]
              + BatchesLog(contentTable, embeddingTable, batches[1..])
         == prefix + BatchesLog(contentTable, embeddingTable, batches)
  {
  }

  lemma InsertBatchesStep(db: Db, contentTable: string, embeddingTable: string, batches: seq<seq<Document>>)
    requires |batches| > 0
    requires InsertBatch(db, contentTable, embeddingTable, batches[0]).1 == Pass
    ensures InsertBatches(db, contentTable, embeddingTable, batches)
         == InsertBatches(InsertBatch(db, contentTable, embeddingTable, batches[0]).0,
                          contentTable, embeddingTable, batches[1..])
  {
  }

  /** The sizes of the batches sent to one table, in order. */
  function BatchSizes(log: seq<Statement>, table: string): seq<nat>
    decreases |log|
  {
    if |log| == 0 then []
    else (if log[0].Batched? && log[0].table == table then [log[0].size] else []) + BatchSizes(log[1..], table)
  }

  lemma {:induction false} BatchSizesAppend(a: seq<Statement>, b: seq<Statement>, table: string)
    ensures BatchSizes(a + b, table) == BatchSizes(a, table) + BatchSizes(b, table)
    decreases |a|
  {
    if |a| == 0 {
      assert a + b == b;
    } else {
      assert (a + b)[0] == a[0];
      assert (a + b)[1..] == a[1..] + b;
      BatchSizesAppend(a[1..], b, table);
    }
  }

  lemma {:induction false} EmbedLogSizes(contentTable: string, embeddingTable: string, docs: seq<Document>)
    requires contentTable != embeddingTable
    ensures BatchSizes(EmbedLog(embeddingTable, docs), contentTable) == []
    decreases |docs|
  {
    if |docs| > 0 {
      assert EmbedLog(embeddingTable, docs)[1..] == EmbedLog(embeddingTable, docs[1..]);
      EmbedLogSizes(contentTable, embeddingTable, docs[1..]);
    }
  }

  function Sizes(batches: seq<seq<Document>>): (r: seq<nat>)
    ensures |r| == |batches|
    ensures forall i :: 0 <= i < |batches| ==> r[i] == |batches[i]|
  {
    seq(|batches|, i requires 0 <= i < |batches| => |batches[i]|)
  }

  /** The content-table batches sent are the document batches, one statement each, in order. */
  lemma {:induction false} ContentBatchSizes(contentTable: string, embeddingTable: string, batches: seq<seq<Document>>)
    requires contentTable != embeddingTable
    ensures BatchSizes(BatchesLog(contentTable, embeddingTable, batches), contentTable) == Sizes(batches)
    decreases |batches|
  {
    if |batches| > 0 {
      var b0 := batches[0];
      var head := EmbedLog(embeddingTable, b0) + [Batched(contentTable, |b0|)];
      BatchSizesAppend(head, BatchesLog(contentTable, embeddingTable, batches[1..]), contentTable);
      BatchSizesAppend(EmbedLog(embeddingTable, b0), [Batched(contentTable, |b0|)], contentTable);
      EmbedLogSizes(contentTable, embeddingTable, b0);
      ContentBatchSizes(contentTable, embeddingTable, batches[1..]);
      assert Sizes(batches) == [|b0|] + Sizes(batches[1..]);
    }
  }

  // ---------------------------------------------------------------------------
  // doAdd over a pair of tables

  /**
   * doAdd once the embedding model has attached the vectors: batchDocuments, then
   * insertOrUpdateContent per batch. A negative batch size makes the first
   * subList fail; with no documents there is no batch at all.
   */
  function StoreDocuments(db: Db, contentTable: string, embeddingTable: string,
                          documents: seq<Document>, maxDocumentBatchSize: int): (Db, Outcome<StoreError>)
  {
    if maxDocumentBatchSize > 0 then
      InsertBatches(db, contentTable, embeddingTable, Partition(documents, maxDocumentBatchSize))
    else if |documents| == 0 then (db, Pass)
    else (db, Fail(InvalidBatchSize(maxDocumentBatchSize)))
  }

  /** doAdd's batching and storing, in place: batchDocuments, then each batch in turn. */
  method AddDocuments(db: Database, contentTable: string, embeddingTable: string,
                      documents: seq<Document>, maxDocumentBatchSize: int) returns (o: Outcome<StoreError>)
    requires maxDocumentBatchSize != 0 || |documents| == 0
    modifies db
    ensures (db.State(), o) == StoreDocuments(old(db.State()), contentTable, embeddingTable, documents, maxDocumentBatchSize)
  {
    var batches := BatchDocuments(documents, maxDocumentBatchSize);
    match batches
    case None =>
      o := Fail(InvalidBatchSize(maxDocumentBatchSize));
    case Some(bs) =>
      o := InsertEach(db, contentTable, embeddingTable, bs);
  }

  /**
   * When every vector fits and the content table accepts every row, doAdd succeeds:
   * the embedding table gains every document's rows in document order, the content
   * table gains every document's row, and the batches are sent in order.
   */
  lemma StoreEffect(db: Db, contentTable: string, embeddingTable: string, documents: seq<Document>,
                    maxDocumentBatchSize: int, loc: Location, cloc: Location)
    requires maxDocumentBatchSize > 0
    requires VectorTableAt(db, embeddingTable, loc) && ContentTableAt(db, contentTable, cloc)
    requires FitsSmallint(documents)
    requires AddedContent(At(db, cloc), documents).Success?
    ensures StoreDocuments(db, contentTable, embeddingTable, documents, maxDocumentBatchSize).1 == Pass
    ensures StoreDocuments(db, contentTable, embeddingTable, documents, maxDocumentBatchSize).0 ==
      Put(Put(db, loc, VectorTable(At(db, loc).vrows + AllEmbeddingRows(documents))),
          cloc, ContentAfter(At(db, cloc), documents))
        .(log := db.log + BatchesLog(contentTable, embeddingTable, Partition(documents, maxDocumentBatchSize)))
  {
    PartitionPreservesOrder(documents, maxDocumentBatchSize);
    InsertBatchesEffect(db, contentTable, embeddingTable, Partition(documents, maxDocumentBatchSize), loc, cloc);
  }

  /** Without a positive batch size doAdd stores nothing: it fails unless there is nothing to store. */
  lemma StoreWithoutBatchSize(db: Db, contentTable: string, embeddingTable: string, documents: seq<Document>,
                              maxDocumentBatchSize: int)
    requires maxDocumentBatchSize <= 0
    ensures StoreDocuments(db, contentTable, embeddingTable, documents, maxDocumentBatchSize).0 == db
    ensures StoreDocuments(db, contentTable, embeddingTable, documents, maxDocumentBatchSize).1 ==
      if |documents| == 0 then Pass else Fail(InvalidBatchSize(maxDocumentBatchSize))
  {
  }

  /**
   * After a successful doAdd each document can be read back: its content row is
   * stored under its id, and the embedding rows carrying its id are its own vector
   * in index order (when the table held none of that id before).
   */
  lemma StoresEachDocument(db: Db, contentTable: string, embeddingTable: string, documents: seq<Document>,
                           maxDocumentBatchSize: int, loc: Location, cloc: Location, k: nat)
    requires maxDocumentBatchSize > 0
    requires VectorTableAt(db, embeddingTable, loc) && ContentTableAt(db, contentTable, cloc)
    requires FitsSmallint(documents)
    requires AddedContent(At(db, cloc), documents).Success?
    requires k < |documents|
    requires forall i :: 0 <= i < |At(db, loc).vrows| ==> At(db, loc).vrows[i].docId != documents[k].id
    ensures var after := StoreDocuments(db, contentTable, embeddingTable, documents, maxDocumentBatchSize).0;
      Exists(after, loc) && At(after, loc).VectorTable? &&
      Ranking.RowsOf(At(after, loc).vrows, documents[k].id) == EmbeddingRows(documents[k].id, documents[k].embedding)
    ensures var after := StoreDocuments(db, contentTable, embeddingTable, documents, maxDocumentBatchSize).0;
      Exists(after, cloc) && At(after, cloc).ContentTable? && documents[k].id in At(after, cloc).rows &&
      At(after, cloc).rows[documents[k].id] == ContentRow(documents[k].content, documents[k].metadata)
  {
    StoreEffect(db, contentTable, embeddingTable, documents, maxDocumentBatchSize, loc, cloc);
    var t := At(db, cloc);
    var rows := ContentRows(documents);
    AddContentRowsSucceeds(t.rows, rows, t.metadataColumn, t.constraint);
    assert forall i, j :: 0 <= i < j < |documents| ==> documents[i].id != documents[j].id by {
      forall i, j | 0 <= i < j < |documents| ensures documents[i].id != documents[j].id {
        assert rows[i].0 == documents[i].id && rows[j].0 == documents[j].id;
      }
    }
    assert loc != cloc;
    var vt := VectorTable(At(db, loc).vrows + AllEmbeddingRows(documents));
    PutOther(Put(db, loc, vt), cloc, ContentAfter(t, documents), loc);
    AllRowsOf(documents, k);
    Ranking.RowsOfNone(At(db, loc).vrows, documents[k].id);
    Ranking.RowsOfAppend(At(db, loc).vrows, AllEmbeddingRows(documents), documents[k].id);
    assert [] + EmbeddingRows(documents[k].id, documents[k].embedding) == EmbeddingRows(documents[k].id, documents[k].embedding);
    assert rows[k] == (documents[k].id, ContentRow(documents[k].content, documents[k].metadata));
  }

  /** The content batches of a successful doAdd, in order, are the partition's batch sizes. */
  lemma StoreBatchSizes(db: Db, contentTable: string, embeddingTable: string, documents: seq<Document>,
                        maxDocumentBatchSize: int, loc: Location, cloc: Location)
    requires maxDocumentBatchSize > 0
    requires contentTable != embeddingTable
    requires VectorTableAt(db, embeddingTable, loc) && ContentTableAt(db, contentTable, cloc)
    requires FitsSmallint(documents)
    requires AddedContent(At(db, cloc), documents).Success?
    ensures BatchSizes(StoreDocuments(db, contentTable, embeddingTable, documents, maxDocumentBatchSize).0.log, contentTable)
         == BatchSizes(db.log, contentTable) + Sizes(Partition(documents, maxDocumentBatchSize))
  {
    var batches := Partition(documents, maxDocumentBatchSize);
    StoreEffect(db, contentTable, embeddingTable, documents, maxDocumentBatchSize, loc, cloc);
    BatchSizesAppend(db.log, BatchesLog(contentTable, embeddingTable, batches), contentTable);
    ContentBatchSizes(contentTable, embeddingTable, batches);
  }
}
