/**
 * The `try_parse` implementations as the source runs them: on a
 * `TokenStream` object whose `current` they change, making every trial on
 * a clone. Each is proved to compute `Grammar.Parse` and to leave the
 * caller's cursor where `Parse` says.
 */
module Engine {
  import opened Lib
  import opened Scanner
  import opened Stream
  import opened Grammar

  /** `Token::try_parse`: the next token with span `[current, current + 1)`; at the end, `Eof` after the cursor has still moved by one. */
  method TokenTryParse(s: TokenStream<Token>) returns (r: Result<ParseMeta<Token>, Token>)
    modifies s
    ensures old(s.current) < |s.tokens| ==> r == Ok(ParseMeta(old(s.current), old(s.current) + 1, s.tokens[old(s.current)]))
    ensures old(s.current) >= |s.tokens| ==> r == Err(Eof)
    ensures s.current == old(s.current) + 1
  {
    var start := s.current;
    var end := s.current + 1;
    var t := s.AdvanceBy(1);
    match t {
      case None => return Err(Eof);
      case Some(token) => return Ok(ParseMeta(start, end, token));
    }
  }

  /** `<() as Parse>::try_parse`: succeeds with the empty span at the cursor and does not move it. */
  method UnitTryParse(s: TokenStream<Token>) returns (r: Result<ParseMeta<Value>, Token>)
    ensures r.Ok? && r.value == ParseMeta(s.current, s.current, UnitValue)
  {
    return Ok(ParseMeta(s.current, s.current, UnitValue));
  }

  /** `<NoToken as Parse>::try_parse`: succeeds with the empty span at the cursor and does not move it. */
  method NoTokenTryParse(s: TokenStream<Token>) returns (r: Result<ParseMeta<Value>, Token>)
    ensures r.Ok? && r.value == ParseMeta(s.current, s.current, NoTokenValue)
  {
    return Ok(ParseMeta(s.current, s.current, NoTokenValue));
  }

  /** `tokens.peek().ok_or(Eof)?` turned into the error the combinators report. */
  method ErrorHere(s: TokenStream<Token>) returns (e: ParseError<Token>)
    ensures e == ErrorAt(s.tokens, s.current)
  {
    match s.Peek() {
      case Some(t) => return UnexpectedToken(t);
      case None => return Eof;
    }
  }

  /**
   * `TokenStream::try_parse::<R>()`, i.e. `R::try_parse(stream)`, for the
   * rule type `r` of grammar `g`.
   */
  method TryParse(g: seq<Rule>, r: Rule, s: TokenStream<Token>, fuel: nat) returns (o: Outcome)
    modifies s
    ensures o == Parse(g, r, s.tokens, old(s.current), fuel)
    ensures o.Done? ==> s.current == o.cursor
    decreases fuel, r, 1
  {
    match r {
      case AnyToken =>
        var res := TokenTryParse(s);
        match res {
          case Ok(m) => o := Done(Ok(ParseMeta(m.start, m.end, TokenValue(m.value))), s.current);
          case Err(e) => o := Done(Err(e), s.current);
        }
      case Unit =>
        var res := UnitTryParse(s);
        o := Done(res, s.current);
      case NoToken =>
        var res := NoTokenTryParse(s);
        o := Done(res, s.current);
      case Boxed(inner) =>
        o := BoxTryParse(g, r, s, fuel);
      case Ref(i) =>
        if i < |g| && fuel > 0 {
          o := TryParse(g, g[i], s, fuel - 1);
        } else {
          o := Stuck;
        }
      case Record(_, _) =>
        o := RecordTryParse(g, r, s, fuel);
      case Alt(_, _) =>
        o := AltTryParse(g, r, s, fuel);
      case Seq(_, _) =>
        o := SeqTryParse(g, r, s, fuel);
    }
  }

  /** `<Box<T> as Parse>::try_parse`: `T::try_parse` on the same stream, then `box_value`. */
  method BoxTryParse(g: seq<Rule>, r: Rule, s: TokenStream<Token>, fuel: nat) returns (o: Outcome)
    requires r.Boxed?
    modifies s
    ensures o == Parse(g, r, s.tokens, old(s.current), fuel)
    ensures o.Done? ==> s.current == o.cursor
    decreases fuel, r, 0
  {
    o := TryParse(g, r.inner, s, fuel);
    match o {
      case Stuck =>
      case Done(Err(e), _) =>
      case Done(Ok(m), cursor) =>
        var b := BoxValue(m);
        o := Done(Ok(ParseMeta(b.start, b.end, BoxedValue(b.value))), cursor);
    }
  }

  /**
   * The struct arm of `impl_rules!`: parse the pattern on a clone (an error
   * is returned as it is), check the value's shape, and commit by advancing
   * the real cursor by `end - start`.
   */
  method RecordTryParse(g: seq<Rule>, r: Rule, s: TokenStream<Token>, fuel: nat) returns (o: Outcome)
    requires r.Record?
    modifies s
    ensures o == Parse(g, r, s.tokens, old(s.current), fuel)
    ensures o.Done? ==> s.current == o.cursor
    decreases fuel, r, 0
  {
    var trial := s.Clone();
    var attempt := TryParse(g, r.pattern, trial, fuel);
    match attempt {
      case Stuck => return Stuck;
      case Done(Err(e), _) => return Done(Err(e), s.current);
      case Done(Ok(m), _) =>
        match Match(r.shape, m.value) {
          case Some(fields) =>
            var _ := s.AdvanceBy(m.end - m.start);
            return Done(Ok(ParseMeta(m.start, m.end, RecordValue(fields))), s.current);
          case None =>
            var e := ErrorHere(s);
            return Done(Err(e), s.current);
        }
    }
  }

  /**
   * The enum arm of `impl_rules!`: try the alternatives in declaration order,
   * each on a fresh clone, and return the first success tagged with its
   * index; otherwise report the token at the cursor. The real cursor is
   * never advanced. The loop stands for the macro's unrolled `if let` chain.
   */
  method AltTryParse(g: seq<Rule>, r: Rule, s: TokenStream<Token>, fuel: nat) returns (o: Outcome)
    requires r.Alt?
    modifies s
    ensures o == Parse(g, r, s.tokens, old(s.current), fuel)
    ensures s.current == old(s.current)
    decreases fuel, r, 0
  {
    var k := 0;
    while k < |Members(r)|
      invariant k <= |Members(r)| && s.current == old(s.current)
      invariant ParseAlt(g, r, 0, s.tokens, s.current, fuel) == ParseAlt(g, r, k, s.tokens, s.current, fuel)
      decreases |Members(r)| - k
    {
      var alternative := if k == 0 then r.first else r.next[k - 1];
      var trial := s.Clone();
      var attempt := TryParse(g, alternative, trial, fuel);
      match attempt {
        case Stuck => return Stuck;
        case Done(Ok(m), _) => return Done(Ok(ParseMeta(m.start, m.end, VariantValue(k, m.value))), s.current);
        case Done(Err(_), _) =>
      }
      k := k + 1;
    }
    var e := ErrorHere(s);
    return Done(Err(e), s.current);
  }

  /**
   * The tuple impl: parse the first member on a clone; before each further
   * member advance the real cursor by the previous member's `end - start`
   * and parse the member on a clone taken there. A failing member's error is
   * returned unchanged, with the real cursor left where it was advanced to.
   */
  method SeqTryParse(g: seq<Rule>, r: Rule, s: TokenStream<Token>, fuel: nat) returns (o: Outcome)
    requires r.Seq?
    modifies s
    ensures o == Parse(g, r, s.tokens, old(s.current), fuel)
    ensures o.Done? ==> s.current == o.cursor
    decreases fuel, r, 0
  {
    var trial := s.Clone();
    var attempt := TryParse(g, r.first, trial, fuel);
    if attempt.Stuck? {
      return Stuck;
    }
    if attempt.result.Err? {
      return Done(Err(attempt.result.error), s.current);
    }
    var first := attempt.result.value;
    var start, end, lastStart := first.start, first.end, first.start;
    var values := [first.value];
    var i := 1;
    while i < |Members(r)|
      invariant 1 <= i <= |Members(r)|
      invariant start <= s.current == lastStart <= end && (end == start || end <= |s.tokens|)
      invariant Parse(g, r, s.tokens, old(s.current), fuel) == ParseSeq(g, r, i, s.tokens, s.current, start, lastStart, end, values, fuel)
      decreases |Members(r)| - i
    {
      var _ := s.AdvanceBy(end - lastStart);
      trial := s.Clone();
      attempt := TryParse(g, r.rest[i - 1], trial, fuel);
      if attempt.Stuck? {
        return Stuck;
      }
      if attempt.result.Err? {
        return Done(Err(attempt.result.error), s.current);
      }
      var m := attempt.result.value;
      lastStart, end := m.start, m.end;
      values := values + [m.value];
      i := i + 1;
    }
    return Done(Ok(ParseMeta(start, end, TupleValue(values))), s.current);
  }
}
