/**
 * What each combinator promises: records commit to the pattern's span or
 * report where they stopped, enums pick the first alternative that parses,
 * tuples parse their members back to back, and boxing changes nothing.
 */
module GrammarProperties {
  import opened Lib
  import opened Scanner
  import opened Stream
  import opened Grammar

  /** The record arm, in all three of its outcomes. */
  lemma RecordRule(g: seq<Rule>, pattern: Rule, shape: Pattern, toks: seq<Token>, pos: nat, fuel: nat)
    ensures var trial := Parse(g, pattern, toks, pos, fuel);
      var o := Parse(g, Record(pattern, shape), toks, pos, fuel);
      (trial.Stuck? ==> o.Stuck?) &&
      (trial.Done? && trial.result.Err? ==> o == Done(Err(trial.result.error), pos)) &&
      (trial.Done? && trial.result.Ok? ==>
        var m := trial.result.value;
        match Match(shape, m.value)
        case Some(fields) => o == Done(Ok(ParseMeta(pos, m.end, RecordValue(fields))), m.end)
        case None => o == Done(Err(ErrorAt(toks, pos)), pos))
  {
  }

  /** Flattening one-value bindings gives back the values in order. */
  lemma {:induction false} FlattenSingletons(vs: seq<Value>)
    ensures Flatten(seq(|vs|, i requires 0 <= i < |vs| => [vs[i]])) == vs
  {
    var bound := seq(|vs|, i requires 0 <= i < |vs| => [vs[i]]);
    if vs != [] {
      assert bound[1..] == seq(|vs[1..]|, i requires 0 <= i < |vs[1..]| => [vs[1..][i]]);
      FlattenSingletons(vs[1..]);
      assert vs == [vs[0]] + vs[1..];
    }
  }

  /**
   * A tuple of field names, `(a, b, ..)`, over a tuple value of the same
   * length binds its items, in order.
   */
  lemma FieldNamesBindInOrder(vs: seq<Value>)
    ensures Match(TuplePattern(seq(|vs|, _ => Bind)), TupleValue(vs)) == Some(vs)
  {
    var items := seq(|vs|, _ => Bind);
    var parts := seq(|items|, i requires 0 <= i < |items| => Match(items[i], vs[i]));
    assert forall i :: 0 <= i < |parts| ==> parts[i] == Some([vs[i]]);
    var bound := seq(|parts|, i requires 0 <= i < |parts| && parts[i].Some? => parts[i].value);
    assert bound == seq(|vs|, i requires 0 <= i < |vs| => [vs[i]]);
    FlattenSingletons(vs);
  }

  /**
   * A struct arm `X { t } => t @ Token::K { .. }` over one token: it parses
   * exactly when the token at the cursor has kind `K`, committing the cursor
   * past it; a token of another kind is reported where it stands.
   */
  lemma RecordOfTokenKind(g: seq<Rule>, k: nat, toks: seq<Token>, pos: nat, fuel: nat)
    requires pos < |toks|
    ensures var o := Parse(g, Record(AnyToken, TokenOf(k)), toks, pos, fuel);
      (toks[pos].kind == k ==> o == Done(Ok(ParseMeta(pos, pos + 1, RecordValue([TokenValue(toks[pos])]))), pos + 1)) &&
      (toks[pos].kind != k ==> o == Done(Err(UnexpectedToken(toks[pos])), pos))
  {
    assert Parse(g, AnyToken, toks, pos, fuel) == Done(Ok(ParseMeta(pos, pos + 1, TokenValue(toks[pos]))), pos + 1);
  }

  /** Unwrapping the box from a boxed rule's outcome gives the inner rule's outcome. */
  function Unbox(o: Outcome): (unboxed: Outcome)
  {
    match o
    case Done(Ok(ParseMeta(start, end, BoxedValue(Box(v)))), cursor) => Done(Ok(ParseMeta(start, end, v)), cursor)
    case _ => o
  }

  /** `Box<T>::try_parse` has exactly the outcome, span and cursor effect of `T::try_parse`. */
  lemma BoxIsTransparent(g: seq<Rule>, inner: Rule, toks: seq<Token>, pos: nat, fuel: nat)
    ensures Unbox(Parse(g, Boxed(inner), toks, pos, fuel)) == Parse(g, inner, toks, pos, fuel)
    ensures Parse(g, Boxed(inner), toks, pos, fuel).Done? <==> Parse(g, inner, toks, pos, fuel).Done?
  {
  }

  /** An alternative that fails with an error (rather than having no outcome). */
  ghost predicate Fails(g: seq<Rule>, r: Rule, toks: seq<Token>, pos: nat, fuel: nat)
  {
    Parse(g, r, toks, pos, fuel).Done? && Parse(g, r, toks, pos, fuel).result.Err?
  }

  lemma {:induction false} AltFirstSuccessFrom(g: seq<Rule>, r: Rule, j: nat, k: nat, toks: seq<Token>, pos: nat, fuel: nat)
    requires r.Alt? && j <= k < |Members(r)|
    requires forall i :: j <= i < k ==> Fails(g, Members(r)[i], toks, pos, fuel)
    requires Parse(g, Members(r)[k], toks, pos, fuel).Done? && Parse(g, Members(r)[k], toks, pos, fuel).result.Ok?
    ensures var m := Parse(g, Members(r)[k], toks, pos, fuel).result.value;
      ParseAlt(g, r, j, toks, pos, fuel) == Done(Ok(ParseMeta(pos, m.end, VariantValue(k, m.value))), pos)
    decreases k - j
  {
    assert Members(r)[j] == if j == 0 then r.first else r.next[j - 1];
    if j < k {
      assert Fails(g, Members(r)[j], toks, pos, fuel);
      AltFirstSuccessFrom(g, r, j + 1, k, toks, pos, fuel);
    }
  }

  /**
   * Ordered choice: when alternative `k` parses and every earlier one fails,
   * the enum returns alternative `k`'s result, tagged `k`, with its span,
   * and leaves the caller's cursor where it was; later alternatives are not
   * consulted.
   */
  lemma AltFirstSuccess(g: seq<Rule>, r: Rule, k: nat, toks: seq<Token>, pos: nat, fuel: nat)
    requires r.Alt? && k < |Members(r)|
    requires forall i :: 0 <= i < k ==> Fails(g, Members(r)[i], toks, pos, fuel)
    requires Parse(g, Members(r)[k], toks, pos, fuel).Done? && Parse(g, Members(r)[k], toks, pos, fuel).result.Ok?
    ensures var m := Parse(g, Members(r)[k], toks, pos, fuel).result.value;
      Parse(g, r, toks, pos, fuel) == Done(Ok(ParseMeta(pos, m.end, VariantValue(k, m.value))), pos)
  {
    AltFirstSuccessFrom(g, r, 0, k, toks, pos, fuel);
  }

  /** Declaration order decides: if the first alternative parses, it wins whatever the others do. */
  lemma AltEarlierWins(g: seq<Rule>, first: Rule, next: seq<Rule>, toks: seq<Token>, pos: nat, fuel: nat)
    requires Parse(g, first, toks, pos, fuel).Done? && Parse(g, first, toks, pos, fuel).result.Ok?
    ensures var m := Parse(g, first, toks, pos, fuel).result.value;
      Parse(g, Alt(first, next), toks, pos, fuel) == Done(Ok(ParseMeta(pos, m.end, VariantValue(0, m.value))), pos)
  {
    AltFirstSuccess(g, Alt(first, next), 0, toks, pos, fuel);
  }

  lemma {:induction false} AltAllFailFrom(g: seq<Rule>, r: Rule, j: nat, toks: seq<Token>, pos: nat, fuel: nat)
    requires r.Alt? && j <= |Members(r)|
    requires forall i :: j <= i < |Members(r)| ==> Fails(g, Members(r)[i], toks, pos, fuel)
    ensures ParseAlt(g, r, j, toks, pos, fuel) == Done(Err(ErrorAt(toks, pos)), pos)
    decreases |Members(r)| - j
  {
    if j < |Members(r)| {
      assert Members(r)[j] == if j == 0 then r.first else r.next[j - 1];
      assert Fails(g, Members(r)[j], toks, pos, fuel);
      AltAllFailFrom(g, r, j + 1, toks, pos, fuel);
    }
  }

  /**
   * When every alternative fails, their errors are dropped: the enum reports
   * the token at the entry position (or `Eof` there) and does not move the
   * caller's cursor.
   */
  lemma AltAllFail(g: seq<Rule>, r: Rule, toks: seq<Token>, pos: nat, fuel: nat)
    requires r.Alt?
    requires forall i :: 0 <= i < |Members(r)| ==> Fails(g, Members(r)[i], toks, pos, fuel)
    ensures Parse(g, r, toks, pos, fuel) == Done(Err(ErrorAt(toks, pos)), pos)
  {
    AltAllFailFrom(g, r, 0, toks, pos, fuel);
  }

  /**
   * The reference meaning of a sequence: each member parsed where the
   * previous one ended. `lastStart` / `at` is where the last or failing
   * member started.
   */
  datatype Chain =
    | Chained(end: nat, values: seq<Value>, lastStart: nat)
    | Broken(error: ParseError<Token>, at: nat)
    | ChainStuck

  function ChainFrom(g: seq<Rule>, members: seq<Rule>, toks: seq<Token>, pos: nat, fuel: nat): (c: Chain)
    requires |members| >= 1
    decreases |members|
  {
    match Parse(g, members[0], toks, pos, fuel)
    case Stuck => ChainStuck
    case Done(Err(e), _) => Broken(e, pos)
    case Done(Ok(m), _) =>
      if |members| == 1 then Chained(m.end, [m.value], pos)
      else
        match ChainFrom(g, members[1..], toks, m.end, fuel)
        case Chained(end, values, lastStart) => Chained(end, [m.value] + values, lastStart)
        case other => other
  }

  /** A chain seen as a tuple's outcome, after the values of the members already parsed. */
  function Extend(start: nat, values: seq<Value>, c: Chain): (o: Outcome)
  {
    match c
    case Chained(end, vs, lastStart) => Done(Ok(ParseMeta(start, end, TupleValue(values + vs))), lastStart)
    case Broken(e, at) => Done(Err(e), at)
    case ChainStuck => Stuck
  }

  lemma {:induction false} SeqTail(g: seq<Rule>, r: Rule, i: nat, toks: seq<Token>, cur: nat, start: nat, lastStart: nat,
                                   end: nat, values: seq<Value>, fuel: nat)
    requires r.Seq? && 1 <= i <= |Members(r)|
    requires start <= cur == lastStart <= end && (end == start || end <= |toks|)
    ensures ParseSeq(g, r, i, toks, cur, start, lastStart, end, values, fuel) ==
      if i == |Members(r)| then Done(Ok(ParseMeta(start, end, TupleValue(values))), cur)
      else Extend(start, values, ChainFrom(g, Members(r)[i..], toks, end, fuel))
    decreases |Members(r)| - i
  {
    if i < |Members(r)| {
      var ms := Members(r)[i..];
      assert ms[0] == r.rest[i - 1];
      match Parse(g, r.rest[i - 1], toks, end, fuel) {
        case Stuck =>
        case Done(Err(e), _) =>
        case Done(Ok(m), _) =>
          SeqTail(g, r, i + 1, toks, end, start, m.start, m.end, values + [m.value], fuel);
          if i + 1 < |Members(r)| {
            assert ms[1..] == Members(r)[i + 1..];
            match ChainFrom(g, Members(r)[i + 1..], toks, m.end, fuel) {
              case Chained(e2, vs, l2) =>
                assert values + ([m.value] + vs) == (values + [m.value]) + vs;
              case Broken(_, _) =>
              case ChainStuck =>
            }
          }
      }
    }
  }

  /**
   * The tuple impl is the contiguous chain of its members: member `i + 1`
   * starts where member `i` ended, the span runs from the first member's
   * start to the last member's end, a failing member's error comes back
   * unchanged, and the caller's cursor is left at the start of the last
   * member parsed (the sum of the lengths of the members before it).
   */
  lemma SeqIsChain(g: seq<Rule>, r: Rule, toks: seq<Token>, pos: nat, fuel: nat)
    requires r.Seq?
    ensures Parse(g, r, toks, pos, fuel) == Extend(pos, [], ChainFrom(g, Members(r), toks, pos, fuel))
  {
    var ms := Members(r);
    match Parse(g, r.first, toks, pos, fuel) {
      case Stuck =>
      case Done(Err(e), _) =>
      case Done(Ok(m), _) =>
        SeqTail(g, r, 1, toks, pos, m.start, m.start, m.end, [m.value], fuel);
        if 1 < |ms| {
          match ChainFrom(g, ms[1..], toks, m.end, fuel) {
            case Chained(e2, vs, l2) =>
              assert [] + ([m.value] + vs) == [m.value] + vs;
            case Broken(_, _) =>
            case ChainStuck =>
          }
        } else {
          assert [] + [m.value] == [m.value];
        }
    }
  }
}
