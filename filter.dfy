/**
 * The metadata filter compiler (YbVectorFilterExpressionConverter.convertExpression):
 * a filter expression tree is lowered to a native SQL fragment over the stored
 * metadata column, by concatenation and joins.
 */
module FilterCompiler {
  import opened Text

  /** A literal of a comparison or a membership list: a string or an integer. */
  datatype Literal = Text(s: string) | Number(n: int)

  datatype ComparisonOp = Eq | Ne | Gt | Gte | Lt | Lte

  /** The filter expression tree. AND and OR are binary, as in the filter API. */
  datatype Expr =
    | Comparison(op: ComparisonOp, key: string, value: Literal)
    | In(key: string, values: seq<Literal>)
    | Nin(key: string, values: seq<Literal>)
    | And(left: Expr, right: Expr)
    | Or(left: Expr, right: Expr)
    | Group(inner: Expr)

  function OpSymbol(op: ComparisonOp): string
  {
    match op
    case Eq => "="
    case Ne => "!="
    case Gt => ">"
    case Gte => ">="
    case Lt => "<"
    case Lte => "<="
  }

  /** The metadata accessor for a key, cast to varchar: metadata:<key>::varchar */
  function Accessor(key: string): string
  {
    "metadata:" + key + "::varchar"
  }

  function DigitChar(d: nat): (c: char)
    requires d < 10
    ensures '0' <= c <= '9'
  {
    "0123456789"[d]
  }

  /** Decimal digits of a natural number, most significant first. */
  function NatToString(n: nat): (r: string)
    ensures |r| > 0
    ensures forall k :: 0 <= k < |r| ==> '0' <= r[k] <= '9'
    decreases n
  {
    if n < 10 then [DigitChar(n)] else NatToString(n / 10) + [DigitChar(n % 10)]
  }

  /** Decimal rendering of an integer literal, with a leading '-' when negative. */
  function IntToString(n: int): (r: string)
    ensures |r| > 0
    ensures forall k :: 0 <= k < |r| ==> r[k] == '-' || '0' <= r[k] <= '9'
  {
    if n < 0 then "-" + NatToString(-n) else NatToString(n)
  }

  /** String literals are single-quoted, numbers are emitted unquoted. */
  function LiteralText(v: Literal): string
  {
    match v
    case Text(s) => "'" + s + "'"
    case Number(n) => IntToString(n)
  }

  function Term(op: ComparisonOp, key: string, v: Literal): string
  {
    Accessor(key) + " " + OpSymbol(op) + " " + LiteralText(v)
  }

  /** The equality terms of a membership list joined by " OR ". */
  function EqualityChain(key: string, values: seq<Literal>): string
    decreases |values|
  {
    if |values| == 0 then ""
    else if |values| == 1 then Term(Eq, key, values[0])
    else Term(Eq, key, values[0]) + " OR " + EqualityChain(key, values[1..])
  }

  /** The native fragment of a filter expression. */
  function Compile(e: Expr): string
  {
    match e
    case Comparison(op, key, v) => Term(op, key, v)
    case In(key, values) => "(" + EqualityChain(key, values) + ")"
    case Nin(key, values) => "!(" + EqualityChain(key, values) + ")"
    case And(l, r) => Compile(l) + " AND " + Compile(r)
    case Or(l, r) => Compile(l) + " OR " + Compile(r)
    case Group(inner) => "(" + Compile(inner) + ")"
  }

  // ---------------------------------------------------------------------------
  // The strings that the converter's unit test expects. Each comparison term is
  // checked against its text in a lemma of its own, and the connectives are
  // regrouped by lemmas over arbitrary strings, so that no proof compares long
  // literals.

  /** Regrouping a two-term chain between an opening and a closing piece. */
  lemma RegroupChain2(p: string, a: string, o: string, b: string, q: string)
    ensures p + ((a + o) + b) + q == p + a + o + b + q
  {
  }

  /** Regrouping a three-term chain between an opening and a closing piece. */
  lemma RegroupChain3(p: string, a: string, o: string, b: string, c: string, q: string)
    ensures p + ((a + o) + ((b + o) + c)) + q == p + a + o + b + o + c + q
  {
  }

  /** Regrouping a right-nested pair of connectives. */
  lemma RegroupNested(a: string, o: string, b: string, n: string, c: string)
    ensures (a + o) + ((b + n) + c) == a + o + b + n + c
  {
  }

  lemma Digits2020()
    ensures NatToString(2020) == "2020"
  {
    assert NatToString(2) == "2";
    assert NatToString(20) == "20";
    assert NatToString(202) == "202";
  }

  lemma YearText()
    ensures "metadata:" + "year" + "::varchar" + " " + ">=" + " " + "2020" == "metadata:year::varchar >= 2020"
  {
  }

  lemma YearAtLeast2020()
    ensures Compile(Comparison(Gte, "year", Number(2020))) == "metadata:year::varchar >= 2020"
  {
    Digits2020();
    YearText();
  }

  lemma FileNameText(s: string)
    ensures "metadata:" + "file_name" + "::varchar" + " " + "=" + " " + ("'" + s + "'")
         == "metadata:file_name::varchar = '" + s + "'"
  {
  }

  /** The expected text, written as the prefix, the quoted value and the closing quote. */
  lemma CompileStringEquality()
    ensures Compile(Comparison(Eq, "file_name", Text("EmployeeHandbook.odf")))
         == "metadata:file_name::varchar = '" + "EmployeeHandbook.odf" + "'"
  {
    FileNameText("EmployeeHandbook.odf");
  }

  lemma GenreText(s: string)
    ensures "metadata:" + "genre" + "::varchar" + " " + "=" + " " + ("'" + s + "'") == "metadata:genre::varchar = '" + s + "'"
  {
  }

  lemma DramaTerm()
    ensures Compile(Comparison(Eq, "genre", Text("drama"))) == "metadata:genre::varchar = 'drama'"
  {
    GenreText("drama");
  }

  lemma ComedyTerm()
    ensures Compile(Comparison(Eq, "genre", Text("comedy"))) == "metadata:genre::varchar = 'comedy'"
  {
    GenreText("comedy");
  }

  lemma DocumentaryTerm()
    ensures Compile(Comparison(Eq, "genre", Text("documentary"))) == "metadata:genre::varchar = 'documentary'"
  {
    GenreText("documentary");
  }

  lemma CountryText()
    ensures "metadata:" + "country" + "::varchar" + " " + "=" + " " + ("'" + "BG" + "'") == "metadata:country::varchar = 'BG'"
  {
  }

  lemma CountryTerm()
    ensures Compile(Comparison(Eq, "country", Text("BG"))) == "metadata:country::varchar = 'BG'"
  {
    CountryText();
  }

  lemma CityText(op: string, s: string)
    ensures "metadata:" + "city" + "::varchar" + " " + op + " " + ("'" + s + "'") == "metadata:city::varchar " + op + " '" + s + "'"
  {
  }

  lemma CityNotSofia()
    ensures Compile(Comparison(Ne, "city", Text("Sofia"))) == "metadata:city::varchar != 'Sofia'"
  {
    CityText("!=", "Sofia");
  }

  lemma CitySofia()
    ensures Compile(Comparison(Eq, "city", Text("Sofia"))) == "metadata:city::varchar = 'Sofia'"
  {
    CityText("=", "Sofia");
  }

  lemma CityPlovdiv()
    ensures Compile(Comparison(Eq, "city", Text("Plovdiv"))) == "metadata:city::varchar = 'Plovdiv'"
  {
    CityText("=", "Plovdiv");
  }

  lemma CompileEqAndGte()
    ensures Compile(And(Comparison(Eq, "genre", Text("drama")), Comparison(Gte, "year", Number(2020))))
         == "metadata:genre::varchar = 'drama'" + " AND " + "metadata:year::varchar >= 2020"
  {
    DramaTerm();
    YearAtLeast2020();
  }

  lemma CompileIn()
    ensures Compile(In("genre", [Text("comedy"), Text("documentary"), Text("drama")]))
         == "(" + "metadata:genre::varchar = 'comedy'"
          + " OR " + "metadata:genre::varchar = 'documentary'"
          + " OR " + "metadata:genre::varchar = 'drama'" + ")"
  {
    var vs := [Text("comedy"), Text("documentary"), Text("drama")];
    assert vs[1..] == [Text("documentary"), Text("drama")];
    assert vs[1..][1..] == [Text("drama")];
    ComedyTerm();
    DocumentaryTerm();
    DramaTerm();
    RegroupChain3("(", Compile(Comparison(Eq, "genre", vs[0])), " OR ", Compile(Comparison(Eq, "genre", vs[1])),
                  Compile(Comparison(Eq, "genre", vs[2])), ")");
  }

  lemma CompileNe()
    ensures Compile(Or(Comparison(Gte, "year", Number(2020)),
                       And(Comparison(Eq, "country", Text("BG")), Comparison(Ne, "city", Text("Sofia")))))
         == "metadata:year::varchar >= 2020"
          + " OR " + "metadata:country::varchar = 'BG'"
          + " AND " + "metadata:city::varchar != 'Sofia'"
  {
    NestingIsNotParenthesized(Comparison(Gte, "year", Number(2020)), Comparison(Eq, "country", Text("BG")),
                              Comparison(Ne, "city", Text("Sofia")));
    YearAtLeast2020();
    CountryTerm();
    CityNotSofia();
  }

  lemma CompileGroupAndNin()
    ensures Compile(And(Group(Or(Comparison(Gte, "year", Number(2020)), Comparison(Eq, "country", Text("BG")))),
                        Nin("city", [Text("Sofia"), Text("Plovdiv")])))
         == ("(" + "metadata:year::varchar >= 2020" + " OR " + "metadata:country::varchar = 'BG'" + ")")
          + " AND " + ("!(" + "metadata:city::varchar = 'Sofia'" + " OR " + "metadata:city::varchar = 'Plovdiv'" + ")")
  {
    var vs := [Text("Sofia"), Text("Plovdiv")];
    assert vs[1..] == [Text("Plovdiv")];
    YearAtLeast2020();
    CountryTerm();
    CitySofia();
    CityPlovdiv();
    RegroupChain2("(", Compile(Comparison(Gte, "year", Number(2020))), " OR ", Compile(Comparison(Eq, "country", Text("BG"))), ")");
    RegroupChain2("!(", Compile(Comparison(Eq, "city", vs[0])), " OR ", Compile(Comparison(Eq, "city", vs[1])), ")");
  }

  // ---------------------------------------------------------------------------
  // Parentheses come only from Group, IN and NIN nodes.

  predicate NoParens(s: string)
  {
    forall i :: 0 <= i < |s| ==> s[i] != '(' && s[i] != ')'
  }

  /** Keys and string literals of the tree carry no parentheses of their own. */
  predicate ParenFreeLiterals(e: Expr)
  {
    match e
    case Comparison(_, key, v) => NoParens(key) && (v.Text? ==> NoParens(v.s))
    case In(key, values) => NoParens(key) && forall i :: 0 <= i < |values| && values[i].Text? ==> NoParens(values[i].s)
    case Nin(key, values) => NoParens(key) && forall i :: 0 <= i < |values| && values[i].Text? ==> NoParens(values[i].s)
    case And(l, r) => ParenFreeLiterals(l) && ParenFreeLiterals(r)
    case Or(l, r) => ParenFreeLiterals(l) && ParenFreeLiterals(r)
    case Group(inner) => ParenFreeLiterals(inner)
  }

  /** The number of nodes that wrap their output in a pair of parentheses. */
  function Wrappers(e: Expr): nat
  {
    match e
    case Comparison(_, _, _) => 0
    case In(_, _) => 1
    case Nin(_, _) => 1
    case And(l, r) => Wrappers(l) + Wrappers(r)
    case Or(l, r) => Wrappers(l) + Wrappers(r)
    case Group(inner) => 1 + Wrappers(inner)
  }

  lemma {:induction false} NoParensCount(s: string)
    requires NoParens(s)
    ensures Count(s, '(') == 0 && Count(s, ')') == 0
    decreases |s|
  {
    if |s| > 0 {
      NoParensCount(s[1..]);
    }
  }

  lemma TermNoParens(op: ComparisonOp, key: string, v: Literal)
    requires NoParens(key)
    requires v.Text? ==> NoParens(v.s)
    ensures NoParens(Term(op, key, v))
  {
    assert NoParens("metadata:");
    assert NoParens("::varchar");
    assert NoParens(" ");
    assert NoParens(OpSymbol(op));
    NoParensAppend("metadata:", key);
    NoParensAppend("metadata:" + key, "::varchar");
    NoParensAppend(Accessor(key), " ");
    NoParensAppend(Accessor(key) + " ", OpSymbol(op));
    NoParensAppend(Accessor(key) + " " + OpSymbol(op), " ");
    if v.Text? {
      assert NoParens("'");
      NoParensAppend("'", v.s);
      NoParensAppend("'" + v.s, "'");
    }
    NoParensAppend(Accessor(key) + " " + OpSymbol(op) + " ", LiteralText(v));
  }

  lemma NoParensAppend(a: string, b: string)
    requires NoParens(a) && NoParens(b)
    ensures NoParens(a + b)
  {
    forall i | 0 <= i < |a + b|
      ensures (a + b)[i] != '(' && (a + b)[i] != ')'
    {
      if i < |a| {
        assert (a + b)[i] == a[i];
      } else {
        assert (a + b)[i] == b[i - |a|];
      }
    }
  }

  lemma {:induction false} ChainNoParens(key: string, values: seq<Literal>)
    requires NoParens(key)
    requires forall i :: 0 <= i < |values| && values[i].Text? ==> NoParens(values[i].s)
    ensures NoParens(EqualityChain(key, values))
    decreases |values|
  {
    if |values| == 1 {
      TermNoParens(Eq, key, values[0]);
    } else if |values| > 1 {
      var rest := values[1..];
      assert forall i :: 0 <= i < |rest| ==> rest[i] == values[i + 1];
      TermNoParens(Eq, key, values[0]);
      ChainNoParens(key, rest);
      NoParensAppend(Term(Eq, key, values[0]), " OR ");
      NoParensAppend(Term(Eq, key, values[0]) + " OR ", EqualityChain(key, rest));
    }
  }

  /** Count of '(' and ')' in Compile(e): exactly one pair per Group, IN and NIN node. */
  lemma {:induction false} ParensOnlyFromWrappers(e: Expr)
    requires ParenFreeLiterals(e)
    ensures Count(Compile(e), '(') == Wrappers(e)
    ensures Count(Compile(e), ')') == Wrappers(e)
  {
    match e
    case Comparison(op, key, v) =>
      TermNoParens(op, key, v);
      NoParensCount(Compile(e));
    case In(key, values) =>
      ChainNoParens(key, values);
      WrapCount("(", EqualityChain(key, values));
    case Nin(key, values) =>
      ChainNoParens(key, values);
      WrapCount("!(", EqualityChain(key, values));
    case And(l, r) =>
      ParensOnlyFromWrappers(l);
      ParensOnlyFromWrappers(r);
      JoinCount(Compile(l), " AND ", Compile(r));
    case Or(l, r) =>
      ParensOnlyFromWrappers(l);
      ParensOnlyFromWrappers(r);
      JoinCount(Compile(l), " OR ", Compile(r));
    case Group(inner) =>
      ParensOnlyFromWrappers(inner);
      GroupCount(Compile(inner));
  }

  lemma WrapCount(open: string, body: string)
    requires open == "(" || open == "!("
    requires NoParens(body)
    ensures Count(open + body + ")", '(') == 1
    ensures Count(open + body + ")", ')') == 1
  {
    NoParensCount(body);
    CountAppend(open, body, '(');
    CountAppend(open, body, ')');
    CountAppend(open + body, ")", '(');
    CountAppend(open + body, ")", ')');
  }

  lemma JoinCount(a: string, sep: string, b: string)
    requires sep == " AND " || sep == " OR "
    ensures Count(a + sep + b, '(') == Count(a, '(') + Count(b, '(')
    ensures Count(a + sep + b, ')') == Count(a, ')') + Count(b, ')')
  {
    NoParensCount(sep);
    CountAppend(a, sep, '(');
    CountAppend(a, sep, ')');
    CountAppend(a + sep, b, '(');
    CountAppend(a + sep, b, ')');
  }

  lemma GroupCount(body: string)
    ensures Count("(" + body + ")", '(') == 1 + Count(body, '(')
    ensures Count("(" + body + ")", ')') == 1 + Count(body, ')')
  {
    CountAppend("(", body, '(');
    CountAppend("(", body, ')');
    CountAppend("(" + body, ")", '(');
    CountAppend("(" + body, ")", ')');
  }

  /**
   * AND and OR add no parentheses, so two differently shaped trees can compile
   * to the same text: OR(a, AND(b, c)) and AND(OR(a, b), c) both give "a OR b AND c".
   */
  lemma NestingIsNotParenthesized(a: Expr, b: Expr, c: Expr)
    ensures Compile(Or(a, And(b, c))) == Compile(a) + " OR " + Compile(b) + " AND " + Compile(c)
    ensures Compile(And(Or(a, b), c)) == Compile(Or(a, And(b, c)))
  {
    RegroupNested(Compile(a), " OR ", Compile(b), " AND ", Compile(c));
  }
}
