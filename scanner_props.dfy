/**
 * What one scanning step and the whole scan promise: literal competition
 * by growing lookahead, regex kinds only after the literals are exhausted,
 * progress, and the shape of a `ScanError`.
 */
module ScannerProperties {
  import opened Lib
  import opened Scanner

  /** No literal kind matches at any lookahead from 1 to `bound`. */
  ghost predicate NoLiteralUpTo(kinds: seq<Kind>, source: string, idx: nat, bound: nat)
  {
    forall k: nat, l: nat :: 1 <= l <= bound ==> !LiteralAt(kinds, source, idx, k, l)
  }

  /** Every regex kind declared before `upTo` finds nothing in the remaining input. */
  ghost predicate NoRegexBefore(kinds: seq<Kind>, matcher: Matcher, source: string, idx: nat, upTo: nat)
    requires upTo <= |kinds| && idx <= |source|
  {
    forall j :: 0 <= j < upTo && kinds[j].Regex? ==> matcher(kinds[j].expression, source[idx..]).None?
  }

  /**
   * The meaning of a scanning step at `idx`, with `lmax` the largest
   * lookahead reached there:
   *  - a literal token: its pattern is the next `len` characters, no literal
   *    matches at any shorter lookahead, and no earlier-declared literal at
   *    this one;
   *  - a regex token: no literal matches at any lookahead, every earlier
   *    regex kind found nothing, and the token is what the engine reported;
   *  - a failure: the sample is the `lmax` characters at `idx`, and no kind
   *    of either sort matched.
   */
  ghost predicate StepMeaning(kinds: seq<Kind>, matcher: Matcher, source: string, idx: nat, s: Step)
    requires |kinds| > 0 && idx < |source|
  {
    var lmax := MaxLookahead(kinds, source, idx);
    match s
    case Emit(t, len) =>
      t.kind < |kinds| &&
      (kinds[t.kind].Literal? ==>
        1 <= len <= lmax && LiteralAt(kinds, source, idx, t.kind, len) && t.captures == [] &&
        NoLiteralUpTo(kinds, source, idx, len - 1) &&
        (forall k: nat :: k < t.kind ==> !LiteralAt(kinds, source, idx, k, len))) &&
      (kinds[t.kind].Regex? ==>
        NoLiteralUpTo(kinds, source, idx, lmax) &&
        NoRegexBefore(kinds, matcher, source, idx, t.kind) &&
        matcher(kinds[t.kind].expression, source[idx..]) == Some(RegexMatch(len, t.captures)))
    case Stop(sample) =>
      sample == source[idx..idx + lmax] &&
      NoLiteralUpTo(kinds, source, idx, lmax) &&
      NoRegexBefore(kinds, matcher, source, idx, |kinds|)
  }

  /**
   * The `'scanner` loop from any reachable state (every smaller lookahead
   * already failed; the regex pass only at the largest lookahead, after
   * it failed too) ends in a step with the meaning above.
   */
  lemma {:induction false} LookaheadMeaning(kinds: seq<Kind>, matcher: Matcher, source: string, idx: nat, l: nat, runRegex: bool)
    requires |kinds| > 0 && WellBehaved(matcher) && idx < |source|
    requires 1 <= l <= MaxLookahead(kinds, source, idx)
    requires NoLiteralUpTo(kinds, source, idx, l - 1)
    requires runRegex ==> l == MaxLookahead(kinds, source, idx) && NoLiteralUpTo(kinds, source, idx, l)
    ensures StepMeaning(kinds, matcher, source, idx, Lookahead(kinds, matcher, source, idx, l, runRegex))
    decreases (if runRegex then 0 else 1), |source| - l
  {
    var lmax := MaxLookahead(kinds, source, idx);
    var pass := Pass(kinds, matcher, source, idx, l, runRegex, 0);
    match pass {
      case Some(hit) =>
        var kk := hit.token.kind;
        if kinds[kk].Literal? {
          forall k: nat | k < kk ensures !LiteralAt(kinds, source, idx, k, l) {
            if k < |kinds| && kinds[k].Literal? {
              assert !HitsAt(kinds, matcher, source, idx, l, runRegex, k);
            }
          }
        } else {
          forall j | 0 <= j < kk && kinds[j].Regex?
            ensures matcher(kinds[j].expression, source[idx..]).None?
          {
            assert !HitsAt(kinds, matcher, source, idx, l, runRegex, j);
          }
        }
      case None =>
        forall k: nat ensures !LiteralAt(kinds, source, idx, k, l) {
          if k < |kinds| && kinds[k].Literal? {
            assert !HitsAt(kinds, matcher, source, idx, l, runRegex, k);
          }
        }
        assert NoLiteralUpTo(kinds, source, idx, l);
        if idx + l + 1 > |source| || l + 1 > MaxStaticPatternLen(kinds) {
          if !runRegex {
            LookaheadMeaning(kinds, matcher, source, idx, l, true);
          } else {
            forall j | 0 <= j < |kinds| && kinds[j].Regex?
              ensures matcher(kinds[j].expression, source[idx..]).None?
            {
              assert !HitsAt(kinds, matcher, source, idx, l, runRegex, j);
            }
          }
        } else {
          LookaheadMeaning(kinds, matcher, source, idx, l + 1, runRegex);
        }
    }
  }

  /** Every scanning step has the meaning stated by `StepMeaning`. */
  lemma ScanStepMeaning(kinds: seq<Kind>, matcher: Matcher, source: string, idx: nat)
    requires |kinds| > 0 && WellBehaved(matcher) && idx < |source|
    ensures StepMeaning(kinds, matcher, source, idx, ScanStep(kinds, matcher, source, idx))
  {
    LookaheadMeaning(kinds, matcher, source, idx, 1, false);
  }

  /** `LiteralAt` is "the pattern is a prefix of the rest of the source". */
  lemma LiteralAtIsPrefix(kinds: seq<Kind>, source: string, idx: nat, k: nat)
    requires k < |kinds| && kinds[k].Literal? && idx <= |source|
    ensures LiteralAt(kinds, source, idx, k, |kinds[k].pattern|) <==> kinds[k].pattern <= source[idx..]
  {
    var p := kinds[k].pattern;
    if p <= source[idx..] {
      assert source[idx..idx + |p|] == source[idx..][..|p|];
    }
    if LiteralAt(kinds, source, idx, k, |p|) {
      assert source[idx..][..|p|] == source[idx..idx + |p|];
    }
  }

  /**
   * Literal competition: when a non-empty literal pattern starts the rest of
   * the source, the step emits a literal token (never a regex one), no
   * longer than that pattern, and among equally long patterns the one
   * declared first.
   */
  lemma LiteralWins(kinds: seq<Kind>, matcher: Matcher, source: string, idx: nat, k: nat)
    requires |kinds| > 0 && WellBehaved(matcher) && idx < |source|
    requires k < |kinds| && kinds[k].Literal? && |kinds[k].pattern| >= 1
    requires kinds[k].pattern <= source[idx..]
    ensures var s := ScanStep(kinds, matcher, source, idx);
      s.Emit? && s.token.kind < |kinds| && kinds[s.token.kind].Literal? && s.len <= |kinds[k].pattern| &&
      (s.len == |kinds[k].pattern| ==> s.token.kind <= k)
  {
    var p := kinds[k].pattern;
    ScanStepMeaning(kinds, matcher, source, idx);
    LiteralAtIsPrefix(kinds, source, idx, k);
    assert |p| <= MaxLookahead(kinds, source, idx);
    assert LiteralAt(kinds, source, idx, k, |p|);
  }

  /**
   * A consequence of trying lookahead 1 first: a literal that has another
   * non-empty literal as a proper prefix is never emitted.
   */
  lemma ShadowedLiteral(kinds: seq<Kind>, matcher: Matcher, source: string, idx: nat, short: nat, long: nat)
    requires |kinds| > 0 && WellBehaved(matcher) && idx < |source|
    requires short < |kinds| && long < |kinds| && kinds[short].Literal? && kinds[long].Literal?
    requires 1 <= |kinds[short].pattern| < |kinds[long].pattern|
    requires kinds[short].pattern <= kinds[long].pattern
    ensures var s := ScanStep(kinds, matcher, source, idx); s.Emit? ==> s.token.kind != long
  {
    var s := ScanStep(kinds, matcher, source, idx);
    ScanStepMeaning(kinds, matcher, source, idx);
    if s.Emit? && s.token.kind == long {
      var p, q := kinds[short].pattern, kinds[long].pattern;
      assert LiteralAt(kinds, source, idx, long, s.len);
      assert s.len == |q|;
      assert source[idx..idx + |p|] == q[..|p|] == p;
      assert LiteralAt(kinds, source, idx, short, |p|);
      assert false;
    }
  }

  /** With `EQ = "="` declared before `EQEQ = "=="`, the text `==` scans as two `EQ` tokens. */
  lemma EqualsEqualsIsTwoEquals(matcher: Matcher)
    requires WellBehaved(matcher)
    ensures Tokenize([Literal("="), Literal("==")], matcher, "==", 0) == Ok([Token(0, []), Token(0, [])])
  {
    var kinds := [Literal("="), Literal("==")];
    var source := "==";
    LiteralWins(kinds, matcher, source, 0, 0);
    ScanStepMeaning(kinds, matcher, source, 0);
    assert ScanStep(kinds, matcher, source, 0) == Emit(Token(0, []), 1);
    assert source[1..] == "=";
    LiteralWins(kinds, matcher, source, 1, 0);
    ScanStepMeaning(kinds, matcher, source, 1);
    assert ScanStep(kinds, matcher, source, 1) == Emit(Token(0, []), 1);
    assert Tokenize(kinds, matcher, source, 2) == Ok([]);
    assert Tokenize(kinds, matcher, source, 1) == Prepend([Token(0, [])], Tokenize(kinds, matcher, source, 2));
    assert [Token(0, [])] + [] == [Token(0, [])];
    assert Tokenize(kinds, matcher, source, 0) == Prepend([Token(0, [])], Tokenize(kinds, matcher, source, 1));
    assert [Token(0, [])] + [Token(0, [])] == [Token(0, []), Token(0, [])];
  }

  /** Declaration order does not help `"=="` either: declared first, it is still shadowed by `"="`. */
  lemma EqualsEqualsIsTwoEqualsEitherOrder(matcher: Matcher)
    requires WellBehaved(matcher)
    ensures Tokenize([Literal("=="), Literal("=")], matcher, "==", 0) == Ok([Token(1, []), Token(1, [])])
  {
    var kinds := [Literal("=="), Literal("=")];
    var source := "==";
    ShadowedLiteral(kinds, matcher, source, 0, 1, 0);
    LiteralWins(kinds, matcher, source, 0, 1);
    assert ScanStep(kinds, matcher, source, 0) == Emit(Token(1, []), 1);
    assert source[1..] == "=";
    LiteralWins(kinds, matcher, source, 1, 1);
    ScanStepMeaning(kinds, matcher, source, 1);
    assert ScanStep(kinds, matcher, source, 1) == Emit(Token(1, []), 1);
    assert Tokenize(kinds, matcher, source, 2) == Ok([]);
    assert Tokenize(kinds, matcher, source, 1) == Prepend([Token(1, [])], Tokenize(kinds, matcher, source, 2));
    assert [Token(1, [])] + [] == [Token(1, [])];
    assert Tokenize(kinds, matcher, source, 0) == Prepend([Token(1, [])], Tokenize(kinds, matcher, source, 1));
    assert [Token(1, [])] + [Token(1, [])] == [Token(1, []), Token(1, [])];
  }

  /**
   * A scan fails only with a `ScanError` whose sample is the non-empty slice
   * examined at the position where no kind matched.
   */
  lemma {:induction false} TokenizeFailure(kinds: seq<Kind>, matcher: Matcher, source: string, idx: nat)
    requires |kinds| > 0 && WellBehaved(matcher) && idx <= |source|
    requires Tokenize(kinds, matcher, source, idx).Err?
    ensures var e := Tokenize(kinds, matcher, source, idx).error;
      e.ScanError? && 1 <= |e.sample| &&
      exists j :: idx <= j < |source| && ScanStep(kinds, matcher, source, j) == Stop(e.sample) &&
        e.sample == source[j..j + MaxLookahead(kinds, source, j)]
    decreases |source| - idx
  {
    var e := Tokenize(kinds, matcher, source, idx).error;
    ScanStepMeaning(kinds, matcher, source, idx);
    match ScanStep(kinds, matcher, source, idx) {
      case Stop(sample) =>
        assert idx <= idx < |source| && ScanStep(kinds, matcher, source, idx) == Stop(e.sample);
      case Emit(t, len) =>
        TokenizeFailure(kinds, matcher, source, idx + len);
    }
  }

  /** Every token consumes at least one character, and a non-empty rest yields a token. */
  lemma {:induction false} TokenizeCount(kinds: seq<Kind>, matcher: Matcher, source: string, idx: nat)
    requires |kinds| > 0 && WellBehaved(matcher) && idx <= |source|
    requires Tokenize(kinds, matcher, source, idx).Ok?
    ensures var ts := Tokenize(kinds, matcher, source, idx).value;
      |ts| <= |source| - idx && (idx < |source| ==> 1 <= |ts|)
    decreases |source| - idx
  {
    if idx < |source| {
      match ScanStep(kinds, matcher, source, idx) {
        case Stop(_) =>
        case Emit(t, len) =>
          TokenizeCount(kinds, matcher, source, idx + len);
      }
    }
  }
}
