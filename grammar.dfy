/**
 * What the generated `Parse` implementations compute, as functions of the
 * token sequence and the caller's cursor position. The macro-generated
 * rule types are modelled as values of `Rule`:
 *  - `AnyToken`: a `Token` used as a rule (`Token::try_parse`, src/scanner.rs);
 *  - `Unit`, `NoToken`, `Boxed`: the hand-written impls in src/grammar/mod.rs;
 *  - `Seq`: a tuple `(A, B, ..)` (`impl_grammar_rule_for_tuples!`);
 *  - `Alt`: an `enum X => A | B | ..` arm of `impl_rules!`;
 *  - `Record`: a struct arm `X { fields } => pattern` of `impl_rules!`;
 *  - `Ref(i)`: a use of the named rule type at index `i` of the grammar.
 * Every parse answers with its result and with where it leaves the caller's
 * cursor, since the combinators differ exactly there.
 */
module Grammar {
  import opened Lib
  import opened Scanner
  import opened Stream

  /** The parse tree: one constructor per kind of rule type. */
  datatype Value =
    | TokenValue(token: Token)
    | UnitValue
    | NoTokenValue
    | TupleValue(items: seq<Value>)
    | VariantValue(alternative: nat, inner: Value)
    | RecordValue(fields: seq<Value>)
    | BoxedValue(boxed: Box<Value>)

  /**
   * The Rust pattern of a record arm. `Bind` is a field name (binds the
   * value), `Wildcard` is `_`, `TokenOf(k)` is `Token::K { .. }` (binds the
   * token, whose captures are its fields), `VariantPattern(a, p)` is
   * `Enum::A(p)`.
   */
  datatype Pattern =
    | Bind
    | Wildcard
    | TokenOf(kind: nat)
    | TuplePattern(items: seq<Pattern>)
    | VariantPattern(alternative: nat, inner: Pattern)

  datatype Rule =
    | AnyToken
    | Unit
    | NoToken
    | Seq(first: Rule, rest: seq<Rule>)
    | Alt(first: Rule, next: seq<Rule>)
    | Record(pattern: Rule, shape: Pattern)
    | Boxed(inner: Rule)
    | Ref(index: nat)

  /** The ordered members of a tuple or the ordered alternatives of an enum. */
  function Members(r: Rule): (ms: seq<Rule>)
    requires r.Seq? || r.Alt?
    ensures |ms| >= 1
  {
    match r
    case Seq(first, rest) => [first] + rest
    case Alt(first, next) => [first] + next
  }

  function Flatten(bindings: seq<seq<Value>>): (flat: seq<Value>)
  {
    if bindings == [] then [] else bindings[0] + Flatten(bindings[1..])
  }

  /** How many values a pattern binds: one per field name and per token pattern. */
  function Binders(p: Pattern): (n: nat)
    decreases p, 1
  {
    match p
    case Bind => 1
    case Wildcard => 0
    case TokenOf(_) => 1
    case TuplePattern(items) => SumBinders(items)
    case VariantPattern(_, inner) => Binders(inner)
  }

  function SumBinders(items: seq<Pattern>): (n: nat)
    decreases items, 0
  {
    if items == [] then 0 else Binders(items[0]) + SumBinders(items[1..])
  }

  /** Flattening bindings of the right sizes gives as many values as the patterns bind together. */
  lemma {:induction false} FlattenCount(bound: seq<seq<Value>>, items: seq<Pattern>)
    requires |bound| == |items|
    requires forall i :: 0 <= i < |items| ==> |bound[i]| == Binders(items[i])
    ensures |Flatten(bound)| == SumBinders(items)
  {
    if items != [] {
      FlattenCount(bound[1..], items[1..]);
    }
  }

  /**
   * Destructuring a parsed value against a record's pattern: the bound
   * values in pattern order, or nothing when the shape differs.
   */
  function Match(p: Pattern, v: Value): (r: Option<seq<Value>>)
    ensures r.Some? ==> |r.value| == Binders(p)
    ensures p.Bind? ==> r == Some([v])
    ensures p.Wildcard? ==> r == Some([])
    ensures p.TokenOf? ==> (r.Some? <==> v.TokenValue? && v.token.kind == p.kind)
    ensures p.TokenOf? && r.Some? ==> r.value == [v]
  {
    match p
    case Bind => Some([v])
    case Wildcard => Some([])
    case TokenOf(kind) =>
      if v.TokenValue? && v.token.kind == kind then Some([v]) else None
    case TuplePattern(items) =>
      if v.TupleValue? && |v.items| == |items| then
        var parts := seq(|items|, i requires 0 <= i < |items| => Match(items[i], v.items[i]));
        if forall i :: 0 <= i < |parts| ==> parts[i].Some? then
          var bound := seq(|parts|, i requires 0 <= i < |parts| && parts[i].Some? => parts[i].value);
          FlattenCount(bound, items);
          Some(Flatten(bound))
        else None
      else None
    case VariantPattern(alternative, inner) =>
      if v.VariantValue? && v.alternative == alternative then Match(inner, v.inner) else None
  }

  /** The outcome of `try_parse`: its result and the caller's cursor afterwards, or no outcome. */
  datatype Outcome =
    | Done(result: Result<ParseMeta<Value>, Token>, cursor: nat)
      /** Fuel ran out (the Rust code overflows its stack) or the rule index is undefined. */
    | Stuck

  /** `Err(UnexpectedToken { token: peek() })`, or `Err(Eof)` when nothing is left. */
  function ErrorAt(toks: seq<Token>, pos: nat): (e: ParseError<Token>)
    ensures e.UnexpectedToken? <==> pos < |toks|
    ensures e.UnexpectedToken? ==> e.token == toks[pos]
    ensures !e.UnexpectedToken? ==> e == Eof
  {
    if pos < |toks| then UnexpectedToken(toks[pos]) else Eof
  }

  /** A successful parse starts at the cursor, ends no earlier, and never claims tokens past the end. */
  ghost predicate SpanFrom(m: ParseMeta<Value>, pos: nat, toks: seq<Token>)
  {
    m.start == pos <= m.end && (m.end == pos || m.end <= |toks|)
  }

  /**
   * `R::try_parse` for the rule `r`, entered with the cursor at `pos`.
   * Every trial parse of a sub-rule runs on a clone, so only the sub-rule's
   * result is used, never where it left the clone.
   */
  function Parse(g: seq<Rule>, r: Rule, toks: seq<Token>, pos: nat, fuel: nat): (o: Outcome)
    ensures o.Done? ==> pos <= o.cursor
    ensures o.Done? && o.result.Ok? ==> SpanFrom(o.result.value, pos, toks) && o.cursor <= o.result.value.end
    decreases fuel, r, 1
  {
    match r
    case AnyToken =>
      if pos < |toks| then Done(Ok(ParseMeta(pos, pos + 1, TokenValue(toks[pos]))), pos + 1)
      else Done(Err(Eof), pos + 1)
    case Unit => Done(Ok(ParseMeta(pos, pos, UnitValue)), pos)
    case NoToken => Done(Ok(ParseMeta(pos, pos, NoTokenValue)), pos)
    case Boxed(inner) =>
      (match Parse(g, inner, toks, pos, fuel)
       case Stuck => Stuck
       case Done(Err(e), cursor) => Done(Err(e), cursor)
       case Done(Ok(m), cursor) =>
         var b := BoxValue(m);
         Done(Ok(ParseMeta(b.start, b.end, BoxedValue(b.value))), cursor))
    case Ref(i) =>
      if i < |g| && fuel > 0 then Parse(g, g[i], toks, pos, fuel - 1) else Stuck
    case Record(pattern, shape) =>
      (match Parse(g, pattern, toks, pos, fuel)
       case Stuck => Stuck
       case Done(Err(e), _) => Done(Err(e), pos)
       case Done(Ok(m), _) =>
         match Match(shape, m.value)
         case Some(fields) => Done(Ok(ParseMeta(m.start, m.end, RecordValue(fields))), pos + (m.end - m.start))
         case None => Done(Err(ErrorAt(toks, pos)), pos))
    case Alt(_, _) => ParseAlt(g, r, 0, toks, pos, fuel)
    case Seq(first, _) =>
      match Parse(g, first, toks, pos, fuel)
      case Stuck => Stuck
      case Done(Err(e), _) => Done(Err(e), pos)
      case Done(Ok(m), _) => ParseSeq(g, r, 1, toks, pos, m.start, m.start, m.end, [m.value], fuel)
  }

  /**
   * The `enum` arm from alternative `k` on: each alternative is tried on a
   * clone at `pos`; the first success is returned, tagged with its index;
   * if all fail, the error names the token at `pos`. The caller's cursor is
   * never moved.
   */
  function ParseAlt(g: seq<Rule>, r: Rule, k: nat, toks: seq<Token>, pos: nat, fuel: nat): (o: Outcome)
    requires r.Alt? && k <= |Members(r)|
    ensures o.Done? ==> o.cursor == pos
    ensures o.Done? && o.result.Ok? ==> SpanFrom(o.result.value, pos, toks)
    decreases fuel, r, 0, |Members(r)| - k
  {
    if k == |Members(r)| then Done(Err(ErrorAt(toks, pos)), pos)
    else
      var alternative := if k == 0 then r.first else r.next[k - 1];
      match Parse(g, alternative, toks, pos, fuel)
      case Stuck => Stuck
      case Done(Ok(m), _) => Done(Ok(ParseMeta(m.start, m.end, VariantValue(k, m.value))), pos)
      case Done(Err(_), _) => ParseAlt(g, r, k + 1, toks, pos, fuel)
  }

  /**
   * The tuple impl after member `i - 1` succeeded with span
   * `[lastStart, end)` on a clone taken at `cur`: advance the real cursor by
   * `end - lastStart`, try member `i` on a clone there, and so on. The
   * result spans from the first member's start to the last member's end.
   */
  function ParseSeq(g: seq<Rule>, r: Rule, i: nat, toks: seq<Token>, cur: nat, start: nat, lastStart: nat, end: nat,
                    values: seq<Value>, fuel: nat): (o: Outcome)
    requires r.Seq? && 1 <= i <= |Members(r)|
    requires start <= cur == lastStart <= end && (end == start || end <= |toks|)
    ensures o.Done? ==> cur <= o.cursor
    ensures o.Done? && o.result.Ok? ==> SpanFrom(o.result.value, start, toks) && o.cursor <= o.result.value.end
    decreases fuel, r, 0, |Members(r)| - i
  {
    if i == |Members(r)| then Done(Ok(ParseMeta(start, end, TupleValue(values))), cur)
    else
      var next := cur + (end - lastStart);
      match Parse(g, r.rest[i - 1], toks, next, fuel)
      case Stuck => Stuck
      case Done(Err(e), _) => Done(Err(e), next)
      case Done(Ok(m), _) => ParseSeq(g, r, i + 1, toks, next, start, m.start, m.end, values + [m.value], fuel)
  }
}
