/**
 * The similarity query of the vector store, evaluated on the in-memory database:
 *
 *   SELECT text, metadata, score, v4.doc_id
 *   FROM (SELECT v2.doc_id, <score> FROM query v1 JOIN embeddings v2
 *         ON v1.embedding_id = v2.embedding_id WHERE v1.doc_id = ?
 *         GROUP BY v2.doc_id ORDER BY score DESC LIMIT k) v4
 *   JOIN content v3 ON v4.doc_id = v3.doc_id
 *   WHERE <where> ORDER BY score DESC
 *
 * The score of a document is an abstract function of the joined component pairs;
 * the database computes a cosine similarity in floating point.
 */
module Ranking {
  import opened Wrappers
  import opened Engine

  /** A row of the ranked subquery v4. */
  datatype Scored = Scored(docId: string, score: real)

  /** A row of the outer query. */
  datatype Found = Found(docId: string, text: string, metadata: string, score: real)

  function ScoredKey(s: Scored): real { s.score }
  function FoundKey(f: Found): real { f.score }

  // ---------------------------------------------------------------------------
  // ORDER BY ... DESC

  ghost predicate SortedDesc<T>(s: seq<T>, key: T -> real)
  {
    forall i, j :: 0 <= i < j < |s| ==> key(s[i]) >= key(s[j])
  }

  /** Insert into a descending sequence, before the first element with a score not above x's. */
  function InsertDesc<T>(x: T, s: seq<T>, key: T -> real): (r: seq<T>)
    ensures multiset(r) == multiset(s) + multiset{x}
    ensures |r| == |s| + 1
    ensures |s| == 0 ==> r == [x]
    ensures |s| > 0 ==> r[0] == x || r[0] == s[0]
    ensures SortedDesc(s, key) ==> SortedDesc(r, key)
    decreases |s|
  {
    if |s| == 0 then [x]
    else if key(x) >= key(s[0]) then [x] + s
    else
      var rest := InsertDesc(x, s[1..], key);
      assert s == [s[0]] + s[1..];
      var r := [s[0]] + rest;
      assert SortedDesc(s, key) ==> SortedDesc(r, key) by {
        if SortedDesc(s, key) {
          assert |s| > 1 ==> key(s[0]) >= key(s[1]);
          forall i, j | 0 <= i < j < |r|
            ensures key(r[i]) >= key(r[j])
          {
            if i == 0 && j > 1 {
              assert key(rest[0]) >= key(rest[j - 1]);
            }
          }
        }
      }
      r
  }

  /** ORDER BY key DESC: a descending permutation; ties keep their input order. */
  function SortDesc<T>(s: seq<T>, key: T -> real): (r: seq<T>)
    ensures multiset(r) == multiset(s)
    ensures |r| == |s|
    ensures SortedDesc(r, key)
    decreases |s|
  {
    if |s| == 0 then []
    else
      assert s == [s[0]] + s[1..];
      InsertDesc(s[0], SortDesc(s[1..], key), key)
  }

  /** LIMIT k. */
  function Take<T>(s: seq<T>, k: nat): (r: seq<T>)
    ensures |r| <= k && |r| <= |s|
    ensures r == s[..|r|]
    ensures |s| > k ==> |r| == k
    ensures |s| <= k ==> r == s
  {
    if |s| <= k then s else s[..k]
  }

  lemma SortedPrefix<T>(s: seq<T>, n: nat, key: T -> real)
    requires n <= |s|
    requires SortedDesc(s, key)
    ensures SortedDesc(s[..n], key)
  {
  }

  lemma InMultiset<T>(x: T, a: seq<T>, b: seq<T>)
    requires multiset(a) == multiset(b)
    ensures x in a <==> x in b
  {
    assert x in a <==> x in multiset(a);
    assert x in b <==> x in multiset(b);
  }

  // ---------------------------------------------------------------------------
  // The ranked subquery v4

  /** The distinct doc ids of the rows, in order of first occurrence (the GROUP BY). */
  function DocIds(rows: seq<VectorRow>): (r: seq<string>)
    ensures forall d :: d in r <==> exists i :: 0 <= i < |rows| && rows[i].docId == d
    ensures forall i, j :: 0 <= i < j < |r| ==> r[i] != r[j]
    decreases |rows|
  {
    if |rows| == 0 then []
    else
      var init := DocIds(rows[..|rows| - 1]);
      var d := rows[|rows| - 1].docId;
      assert forall i :: 0 <= i < |rows| - 1 ==> rows[..|rows| - 1][i] == rows[i];
      if d in init then init else init + [d]
  }

  /** The joined pairs (v1.embedding, v2.embedding) of one query row and the document rows. */
  function RowPairs(x: VectorRow, rows: seq<VectorRow>, d: string): (r: seq<(real, real)>)
    ensures |r| > 0 <==> exists j :: 0 <= j < |rows| && rows[j].docId == d && rows[j].index == x.index
    decreases |rows|
  {
    if |rows| == 0 then []
    else
      var rest := RowPairs(x, rows[1..], d);
      assert forall j :: 1 <= j < |rows| ==> rows[j] == rows[1..][j - 1];
      if rows[0].docId == d && rows[0].index == x.index then [(x.value, rows[0].value)] + rest else rest
  }

  /** All joined pairs of document d: the group that its score is computed over. */
  function Pairs(query: seq<VectorRow>, rows: seq<VectorRow>, d: string): (r: seq<(real, real)>)
    ensures |r| > 0 <==> exists i, j :: 0 <= i < |query| && 0 <= j < |rows| &&
                                 rows[j].docId == d && rows[j].index == query[i].index
    decreases |query|
  {
    if |query| == 0 then []
    else
      var rest := Pairs(query[1..], rows, d);
      assert forall i :: 1 <= i < |query| ==> query[i] == query[1..][i - 1];
      RowPairs(query[0], rows, d) + rest
  }

  /** The query rows of one search: WHERE v1.doc_id = ?. */
  function RowsOf(rows: seq<VectorRow>, id: string): (r: seq<VectorRow>)
    ensures forall x :: x in r <==> x in rows && x.docId == id
    decreases |rows|
  {
    if |rows| == 0 then []
    else if rows[0].docId == id then [rows[0]] + RowsOf(rows[1..], id)
    else RowsOf(rows[1..], id)
  }

  lemma {:induction false} RowsOfAppend(a: seq<VectorRow>, b: seq<VectorRow>, id: string)
    ensures RowsOf(a + b, id) == RowsOf(a, id) + RowsOf(b, id)
    decreases |a|
  {
    if |a| == 0 {
      assert a + b == b;
    } else {
      assert (a + b)[1..] == a[1..] + b;
      RowsOfAppend(a[1..], b, id);
    }
  }

  lemma {:induction false} RowsOfNone(rows: seq<VectorRow>, id: string)
    requires forall i :: 0 <= i < |rows| ==> rows[i].docId != id
    ensures RowsOf(rows, id) == []
    decreases |rows|
  {
    if |rows| > 0 {
      RowsOfNone(rows[1..], id);
    }
  }

  lemma {:induction false} RowsOfAll(rows: seq<VectorRow>, id: string)
    requires forall i :: 0 <= i < |rows| ==> rows[i].docId == id
    ensures RowsOf(rows, id) == rows
    decreases |rows|
  {
    if |rows| > 0 {
      RowsOfAll(rows[1..], id);
      assert rows == [rows[0]] + rows[1..];
    }
  }

  function CandidatesOf(query: seq<VectorRow>, rows: seq<VectorRow>, ids: seq<string>,
                        score: seq<(real, real)> -> real): (r: seq<Scored>)
    ensures forall c :: c in r <==> c.docId in ids && |Pairs(query, rows, c.docId)| > 0
                                    && c.score == score(Pairs(query, rows, c.docId))
    ensures (forall i, j :: 0 <= i < j < |ids| ==> ids[i] != ids[j]) ==>
            forall i, j :: 0 <= i < j < |r| ==> r[i].docId != r[j].docId
    decreases |ids|
  {
    if |ids| == 0 then []
    else
      var d := ids[0];
      var rest := CandidatesOf(query, rows, ids[1..], score);
      assert forall i :: 1 <= i < |ids| ==> ids[i] == ids[1..][i - 1];
      var p := Pairs(query, rows, d);
      if |p| > 0 then [Scored(d, score(p))] + rest else rest
  }

  /**
   * The groups of the inner join: one candidate per document that shares at least
   * one embedding_id with the query rows, with the score of its joined pairs.
   */
  function Candidates(query: seq<VectorRow>, rows: seq<VectorRow>,
                      score: seq<(real, real)> -> real): (r: seq<Scored>)
  {
    CandidatesOf(query, rows, DocIds(rows), score)
  }

  /** Candidates are one per document, exactly the documents that join, with their group's score. */
  lemma CandidatesCharacterized(query: seq<VectorRow>, rows: seq<VectorRow>, score: seq<(real, real)> -> real)
    ensures forall i, j :: 0 <= i < j < |Candidates(query, rows, score)| ==>
      Candidates(query, rows, score)[i].docId != Candidates(query, rows, score)[j].docId
    ensures forall d: string ::
      ((exists c :: c in Candidates(query, rows, score) && c.docId == d) <==> |Pairs(query, rows, d)| > 0)
    ensures forall c :: c in Candidates(query, rows, score) ==> c.score == score(Pairs(query, rows, c.docId))
  {
    var cs := Candidates(query, rows, score);
    forall d: string | |Pairs(query, rows, d)| > 0
      ensures exists c :: c in cs && c.docId == d
    {
      var i, j :| 0 <= i < |query| && 0 <= j < |rows| && rows[j].docId == d && rows[j].index == query[i].index;
      assert d in DocIds(rows);
      assert Scored(d, score(Pairs(query, rows, d))) in cs;
    }
  }

  /** The subquery v4: ORDER BY score DESC LIMIT k over the candidates. */
  function Ranked(cands: seq<Scored>, topK: nat): seq<Scored>
  {
    Take(SortDesc(cands, ScoredKey), topK)
  }

  /** v4 keeps at most k candidates, in non-increasing score, and no candidate it leaves out scores higher. */
  lemma RankedIsTopK(cands: seq<Scored>, topK: nat)
    ensures |Ranked(cands, topK)| <= topK
    ensures |cands| >= topK ==> |Ranked(cands, topK)| == topK
    ensures SortedDesc(Ranked(cands, topK), ScoredKey)
    ensures forall c :: c in Ranked(cands, topK) ==> c in cands
    ensures forall c, x :: c in cands && c !in Ranked(cands, topK) && x in Ranked(cands, topK) ==> x.score >= c.score
  {
    var sorted := SortDesc(cands, ScoredKey);
    var r := Ranked(cands, topK);
    SortedPrefix(sorted, |r|, ScoredKey);
    forall c | c in r ensures c in cands {
      InMultiset(c, sorted, cands);
    }
    forall c, x | c in cands && c !in r && x in r
      ensures x.score >= c.score
    {
      InMultiset(c, sorted, cands);
      var i :| 0 <= i < |sorted| && sorted[i] == c;
      var j :| 0 <= j < |r| && r[j] == x;
      assert sorted[j] == x;
      assert r == sorted[..|r|];
      assert i >= |r|;
    }
  }

  // ---------------------------------------------------------------------------
  // The outer query

  /** JOIN content v3 ON v4.doc_id = v3.doc_id: ranked rows without content are dropped. */
  function JoinContent(ranked: seq<Scored>, content: map<string, ContentRow>): (r: seq<Found>)
    ensures |r| <= |ranked|
    ensures forall f :: f in r <==>
      (Scored(f.docId, f.score) in ranked && f.docId in content && content[f.docId] == ContentRow(f.text, f.metadata))
    decreases |ranked|
  {
    if |ranked| == 0 then []
    else
      var s := ranked[0];
      var rest := JoinContent(ranked[1..], content);
      assert forall i :: 1 <= i < |ranked| ==> ranked[i] == ranked[1..][i - 1];
      assert forall x :: x in ranked <==> x == s || x in ranked[1..];
      if s.docId in content then
        [Found(s.docId, content[s.docId].text, content[s.docId].metadata, s.score)] + rest
      else rest
  }

  /**
   * The WHERE clause. The literal condition "1=1" always holds; any other text is
   * a condition the database evaluates against the row's metadata.
   */
  predicate WhereHolds(where: Option<string>, metadata: string, holds: (string, string) -> bool)
  {
    match where
    case None => true
    case Some(w) => w == "1=1" || holds(w, metadata)
  }

  function ApplyWhere(rows: seq<Found>, where: Option<string>, holds: (string, string) -> bool): (r: seq<Found>)
    ensures |r| <= |rows|
    ensures forall f :: f in r <==> f in rows && WhereHolds(where, f.metadata, holds)
    decreases |rows|
  {
    if |rows| == 0 then []
    else
      var rest := ApplyWhere(rows[1..], where, holds);
      assert forall x :: x in rows <==> x == rows[0] || x in rows[1..];
      if WhereHolds(where, rows[0].metadata, holds) then [rows[0]] + rest else rest
  }

  /** The whole query on the candidate groups and the content table. */
  function Results(cands: seq<Scored>, content: map<string, ContentRow>, topK: nat,
                   where: Option<string>, holds: (string, string) -> bool): seq<Found>
  {
    SortDesc(ApplyWhere(JoinContent(Ranked(cands, topK), content), where, holds), FoundKey)
  }

  /**
   * The limit is applied before the filter: at most k rows, in non-increasing
   * score, each a top-k candidate that has content and satisfies the WHERE clause;
   * and every such top-k candidate is returned.
   */
  lemma ResultsShape(cands: seq<Scored>, content: map<string, ContentRow>, topK: nat,
                     where: Option<string>, holds: (string, string) -> bool)
    ensures |Results(cands, content, topK, where, holds)| <= topK
    ensures SortedDesc(Results(cands, content, topK, where, holds), FoundKey)
    ensures forall f :: f in Results(cands, content, topK, where, holds) <==>
      Scored(f.docId, f.score) in Ranked(cands, topK) && f.docId in content &&
      content[f.docId] == ContentRow(f.text, f.metadata) && WhereHolds(where, f.metadata, holds)
  {
    var ranked := Ranked(cands, topK);
    var filtered := ApplyWhere(JoinContent(ranked, content), where, holds);
    RankedIsTopK(cands, topK);
    forall f ensures f in Results(cands, content, topK, where, holds) <==> f in filtered {
      InMultiset(f, Results(cands, content, topK, where, holds), filtered);
    }
  }

  /**
   * Because the limit comes first, a search can return fewer than k rows although
   * more rows satisfy the filter: the best candidate fails the filter and the one
   * that passes it was cut by LIMIT 1.
   */
  lemma LimitBeforeFilter()
    ensures var cands := [Scored("a", 0.9), Scored("b", 0.5)];
            var content := map["a" := ContentRow("x", "drop"), "b" := ContentRow("y", "keep")];
            var holds := (w: string, m: string) => m == "keep";
            Results(cands, content, 1, Some("1=1AND (k)"), holds) == [] &&
            WhereHolds(Some("1=1AND (k)"), "keep", holds)
  {
    var cands := [Scored("a", 0.9), Scored("b", 0.5)];
    var content := map["a" := ContentRow("x", "drop"), "b" := ContentRow("y", "keep")];
    var holds := (w: string, m: string) => m == "keep";
    RankedBest(cands);
    var joined := JoinContent([cands[0]], content);
    assert joined == [Found("a", "x", "drop", 0.9)];
    assert Some("1=1AND (k)") != Some("1=1");
    assert ApplyWhere(joined, Some("1=1AND (k)"), holds) == [];
  }

  /** LIMIT 1 over two candidates keeps the better one. */
  lemma RankedBest(cands: seq<Scored>)
    requires |cands| == 2 && cands[0].score >= cands[1].score
    ensures Ranked(cands, 1) == [cands[0]]
  {
    assert cands[1..] == [cands[1]];
    assert SortDesc([cands[1]], ScoredKey) == [cands[1]];
    assert SortDesc(cands, ScoredKey) == cands;
  }

  // ---------------------------------------------------------------------------
  // The query on the database

  function VectorRowsOf(db: Db, name: string): Result<seq<VectorRow>, StoreError>
  {
    match Locate(db, name)
    case None => Failure(UndefinedTable(name))
    case Some(loc) =>
      match At(db, loc)
      case VectorTable(rows) => Success(rows)
      case ContentTable(_, _, _) => Failure(UndefinedColumn("embedding_id"))
  }

  function ContentRowsOf(db: Db, name: string): Result<map<string, ContentRow>, StoreError>
  {
    match Locate(db, name)
    case None => Failure(UndefinedTable(name))
    case Some(loc) =>
      match At(db, loc)
      case ContentTable(rows, _, _) => Success(rows)
      case VectorTable(_) => Failure(UndefinedColumn("text"))
  }

  /**
   * The query as sent: relations are resolved in the order v1, v2, v3, and the
   * first missing one is the error.
   */
  function Select(db: Db, queryTable: string, embeddingTable: string, contentTable: string,
                  searchId: string, topK: nat, where: Option<string>,
                  score: seq<(real, real)> -> real, holds: (string, string) -> bool): Result<seq<Found>, StoreError>
  {
    match VectorRowsOf(db, queryTable)
    case Failure(e) => Failure(e)
    case Success(q) =>
      match VectorRowsOf(db, embeddingTable)
      case Failure(e) => Failure(e)
      case Success(rows) =>
        match ContentRowsOf(db, contentTable)
        case Failure(e) => Failure(e)
        case Success(content) =>
          Success(Results(Candidates(RowsOf(q, searchId), rows, score), content, topK, where, holds))
  }

  /** Every successful query result has the shape of ResultsShape, over the database's own tables. */
  lemma SelectShape(db: Db, queryTable: string, embeddingTable: string, contentTable: string,
                    searchId: string, topK: nat, where: Option<string>,
                    score: seq<(real, real)> -> real, holds: (string, string) -> bool)
    requires Select(db, queryTable, embeddingTable, contentTable, searchId, topK, where, score, holds).Success?
    ensures var r := Select(db, queryTable, embeddingTable, contentTable, searchId, topK, where, score, holds).value;
      |r| <= topK && SortedDesc(r, FoundKey) &&
      forall f :: f in r ==>
        (WhereHolds(where, f.metadata, holds) &&
         ContentRowsOf(db, contentTable).Success? && f.docId in ContentRowsOf(db, contentTable).value &&
         ContentRowsOf(db, contentTable).value[f.docId] == ContentRow(f.text, f.metadata))
  {
    var q := VectorRowsOf(db, queryTable).value;
    var rows := VectorRowsOf(db, embeddingTable).value;
    var content := ContentRowsOf(db, contentTable).value;
    ResultsShape(Candidates(RowsOf(q, searchId), rows, score), content, topK, where, holds);
  }
}
