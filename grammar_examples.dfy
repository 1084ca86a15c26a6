/**
 * Two small grammars worked through the model: the expression rule
 * `Expr { left, op, right } => (Token::Num, Op, Token::Num)` with
 * `enum Op => Plus | Star`, and a bare pair of tokens.
 */
module GrammarExamples {
  import opened Lib
  import opened Scanner
  import opened Stream
  import opened Grammar

  // Token kinds, in declaration order.
  const NUM: nat := 0
  const PLUS: nat := 1
  const STAR: nat := 2

  /** Rule types, by index: `Expr`, `Op`, `Plus`, `Star`. */
  function ExprGrammar(): (g: seq<Rule>)
  {
    [ Record(Seq(AnyToken, [Ref(1), AnyToken]), TuplePattern([TokenOf(NUM), Bind, TokenOf(NUM)])),
      Alt(Ref(2), [Ref(3)]),
      Record(AnyToken, TokenOf(PLUS)),
      Record(AnyToken, TokenOf(STAR)) ]
  }

  /** The tokens of `3+4`. */
  function ThreePlusFour(): (toks: seq<Token>)
  {
    [Token(NUM, ["3"]), Token(PLUS, []), Token(NUM, ["4"])]
  }

  /** `Op` at position 1 of `3+4`: the `Plus` alternative parses the `+` token. */
  lemma OpParsesPlus()
    ensures Parse(ExprGrammar(), Ref(1), ThreePlusFour(), 1, 2) ==
      Done(Ok(ParseMeta(1, 2, VariantValue(0, RecordValue([TokenValue(Token(PLUS, []))])))), 1)
  {
    var g, toks := ExprGrammar(), ThreePlusFour();
    var v1 := TokenValue(toks[1]);
    var plus := ParseMeta(1, 2, RecordValue([v1]));
    assert Parse(g, AnyToken, toks, 1, 0) == Done(Ok(ParseMeta(1, 2, v1)), 2);
    assert Match(TokenOf(PLUS), v1) == Some([v1]);
    assert Parse(g, g[2], toks, 1, 0) == Done(Ok(plus), 2);
    assert Parse(g, Ref(2), toks, 1, 1) == Done(Ok(plus), 2);
    assert ParseAlt(g, g[1], 0, toks, 1, 1) == Done(Ok(ParseMeta(1, 2, VariantValue(0, plus.value))), 1);
  }

  /** The tuple `(Token, Op, Token)` over `3+4`: members back to back, cursor left on the last member. */
  lemma TripleParses()
    ensures var toks := ThreePlusFour();
      Parse(ExprGrammar(), ExprGrammar()[0].pattern, toks, 0, 2) ==
      Done(Ok(ParseMeta(0, 3, TupleValue([TokenValue(toks[0]),
        VariantValue(0, RecordValue([TokenValue(toks[1])])), TokenValue(toks[2])]))), 2)
  {
    var g, toks := ExprGrammar(), ThreePlusFour();
    var v0, v2 := TokenValue(toks[0]), TokenValue(toks[2]);
    var op := VariantValue(0, RecordValue([TokenValue(toks[1])]));
    var pair := g[0].pattern;
    var values := [v0, op, v2];
    var done := Done(Ok(ParseMeta(0, 3, TupleValue(values))), 2);
    assert pair.rest[0] == Ref(1) && pair.rest[1] == AnyToken;
    OpParsesPlus();
    assert Parse(g, AnyToken, toks, 2, 2) == Done(Ok(ParseMeta(2, 3, v2)), 3);
    assert [v0, op] + [v2] == values;
    assert ParseSeq(g, pair, 3, toks, 2, 0, 2, 3, values, 2) == done;
    assert ParseSeq(g, pair, 2, toks, 1, 0, 1, 2, [v0, op], 2) == done;
    assert [v0] + [op] == [v0, op];
    assert ParseSeq(g, pair, 1, toks, 0, 0, 0, 1, [v0], 2) == done;
    assert Parse(g, AnyToken, toks, 0, 2) == Done(Ok(ParseMeta(0, 1, v0)), 1);
  }

  /** The shape `(Token::Num { .. }, op, Token::Num { .. })` binds the two numbers and the operator. */
  lemma ExprShapeBinds(v0: Value, op: Value, v2: Value)
    requires v0.TokenValue? && v0.token.kind == NUM && v2.TokenValue? && v2.token.kind == NUM
    ensures Match(ExprGrammar()[0].shape, TupleValue([v0, op, v2])) == Some([v0, op, v2])
  {
    var shape := ExprGrammar()[0].shape;
    var v := TupleValue([v0, op, v2]);
    assert Match(shape.items[0], v0) == Some([v0]);
    assert Match(shape.items[1], op) == Some([op]);
    assert Match(shape.items[2], v2) == Some([v2]);
    var parts := seq(3, i requires 0 <= i < 3 => Match(shape.items[i], v.items[i]));
    assert parts == [Some([v0]), Some([op]), Some([v2])];
    var bound := seq(|parts|, i requires 0 <= i < |parts| && parts[i].Some? => parts[i].value);
    assert bound == [[v0], [op], [v2]];
    assert Flatten([[v2]]) == [v2];
    assert Flatten([[op], [v2]]) == [op, v2];
    assert Flatten(bound) == [v0, op, v2];
  }

  /**
   * `3+4` parses as `Expr` over all three tokens, its operator being the
   * first alternative of `Op`, and the record commits the caller's cursor to
   * the end of its span.
   */
  lemma ExprParsesThreePlusFour()
    ensures Parse(ExprGrammar(), Ref(0), ThreePlusFour(), 0, 3) ==
      Done(Ok(ParseMeta(0, 3, RecordValue([
        TokenValue(Token(NUM, ["3"])),
        VariantValue(0, RecordValue([TokenValue(Token(PLUS, []))])),
        TokenValue(Token(NUM, ["4"]))]))), 3)
  {
    var g, toks := ExprGrammar(), ThreePlusFour();
    var values := [TokenValue(toks[0]), VariantValue(0, RecordValue([TokenValue(toks[1])])), TokenValue(toks[2])];
    TripleParses();
    ExprShapeBinds(values[0], values[1], values[2]);
    assert Parse(g, g[0], toks, 0, 2) == Done(Ok(ParseMeta(0, 3, RecordValue(values))), 3);
  }

  /**
   * A bare tuple leaves the caller's cursor at the start of its last member,
   * not at the end of its span: `(Token, Token)` over two tokens spans
   * `[0, 2)` but leaves the cursor at 1.
   */
  lemma PairLeavesCursorOnLastMember(a: Token, b: Token)
    ensures Parse([], Seq(AnyToken, [AnyToken]), [a, b], 0, 0) ==
      Done(Ok(ParseMeta(0, 2, TupleValue([TokenValue(a), TokenValue(b)]))), 1)
  {
    var pair, toks := Seq(AnyToken, [AnyToken]), [a, b];
    assert Parse([], AnyToken, toks, 0, 0) == Done(Ok(ParseMeta(0, 1, TokenValue(a))), 1);
    assert Parse([], AnyToken, toks, 1, 0) == Done(Ok(ParseMeta(1, 2, TokenValue(b))), 2);
    assert [TokenValue(a)] + [TokenValue(b)] == [TokenValue(a), TokenValue(b)];
    assert ParseSeq([], pair, 1, toks, 0, 0, 0, 1, [TokenValue(a)], 0) ==
      Done(Ok(ParseMeta(0, 2, TupleValue([TokenValue(a), TokenValue(b)]))), 1);
  }
}
