/**
 * The scanner generated by `impl_scanner!` (src/scanner.rs): token kinds
 * declared in order, each either a fixed literal or a regular expression,
 * and the single left-to-right pass `Scanner::scan` that turns source text
 * into tokens.
 *
 * The regular-expression engine is an oracle passed in as a function: given a
 * kind's expression and the remaining input it answers with the length of
 * the match and the texts of its capture groups, or nothing.
 */
module Scanner {
  import opened Lib
  import Utils

  /** A token-kind declaration: `Variant => "lit"` or `Variant { .. } @regex => "re"`. */
  datatype Kind = Literal(pattern: string) | Regex(expression: string)

  /**
   * A scanned token: the index of its kind in the declaration list and, for
   * a regex kind, the texts of its captures (literal kinds capture nothing).
   */
  datatype Token = Token(kind: nat, captures: seq<string>)

  /** What the regex engine reports for one `find` + `captures` call. */
  datatype RegexMatch = RegexMatch(len: nat, captures: seq<string>)

  /** The regex engine: (expression, remaining input) to an optional match. */
  type Matcher = (string, string) -> Option<RegexMatch>

  /**
   * What the scanner relies on from the regex engine: a reported match is
   * non-empty and no longer than the input it was found in.
   */
  ghost predicate WellBehaved(matcher: Matcher)
  {
    forall re: string, input: string ::
      matcher(re, input).Some? ==> 1 <= matcher(re, input).value.len <= |input|
  }

  /** A kind's contribution to `MAX_STATIC_PATTERN_LEN`: regex kinds count 0. */
  function StaticLen(k: Kind): (len: nat)
  {
    match k
    case Literal(p) => |p|
    case Regex(_) => 0
  }

  function StaticLens(kinds: seq<Kind>): (lens: seq<nat>)
    ensures |lens| == |kinds|
    ensures forall i :: 0 <= i < |kinds| ==> lens[i] == StaticLen(kinds[i])
  {
    seq(|kinds|, i requires 0 <= i < |kinds| => StaticLen(kinds[i]))
  }

  /** `MAX_STATIC_PATTERN_LEN`: the longest literal pattern, via `max!`. */
  function MaxStaticPatternLen(kinds: seq<Kind>): (m: nat)
    requires |kinds| > 0
    ensures forall i :: 0 <= i < |kinds| && kinds[i].Literal? ==> |kinds[i].pattern| <= m
    ensures m == 0 || exists i :: 0 <= i < |kinds| && kinds[i].Literal? && |kinds[i].pattern| == m
  {
    var lens := StaticLens(kinds);
    var m := Utils.Max(lens);
    assert forall i :: 0 <= i < |kinds| ==> lens[i] <= m;
    assert exists i :: 0 <= i < |lens| && lens[i] == m;
    m
  }

  /** The largest lookahead the scanner reaches at `idx`: at least 1, else bounded by both the longest literal and the remaining input. */
  function MaxLookahead(kinds: seq<Kind>, source: string, idx: nat): (l: nat)
    requires |kinds| > 0 && idx < |source|
    ensures 1 <= l <= |source| - idx
  {
    var m := MaxStaticPatternLen(kinds);
    var bound := if m < |source| - idx then m else |source| - idx;
    if bound >= 1 then bound else 1
  }

  /** Literal kind `k` equals the `l` characters of `source` at `idx`. */
  predicate LiteralAt(kinds: seq<Kind>, source: string, idx: nat, k: nat, l: nat)
  {
    k < |kinds| && kinds[k].Literal? && idx + l <= |source| && source[idx..idx + l] == kinds[k].pattern
  }

  /** Kind `k` fires in the pass over the kinds at lookahead `l`. */
  predicate HitsAt(kinds: seq<Kind>, matcher: Matcher, source: string, idx: nat, l: nat, runRegex: bool, k: nat)
    requires k < |kinds| && idx <= |source|
  {
    match kinds[k]
    case Literal(_) => LiteralAt(kinds, source, idx, k, l)
    case Regex(re) => runRegex && matcher(re, source[idx..]).Some?
  }

  /** A kind that fired: the token it emits and how far `idx` advances. */
  datatype Hit = Hit(token: Token, len: nat)

  /**
   * One pass of the `'scanner` loop body over the kinds from `k` on, in
   * declaration order: a literal kind is compared with the `l` characters
   * at `idx`; a regex kind is consulted only when `runRegex` is set.
   */
  function Pass(kinds: seq<Kind>, matcher: Matcher, source: string, idx: nat, l: nat, runRegex: bool, k: nat): (r: Option<Hit>)
    requires WellBehaved(matcher)
    requires 1 <= l && idx + l <= |source| && k <= |kinds|
    ensures r.None? ==> forall j :: k <= j < |kinds| ==> !HitsAt(kinds, matcher, source, idx, l, runRegex, j)
    ensures r.Some? ==>
      var kk := r.value.token.kind;
      k <= kk < |kinds| && HitsAt(kinds, matcher, source, idx, l, runRegex, kk) &&
      (forall j :: k <= j < kk ==> !HitsAt(kinds, matcher, source, idx, l, runRegex, j)) &&
      1 <= r.value.len <= |source| - idx &&
      (kinds[kk].Literal? ==> r.value.len == l && r.value.token.captures == []) &&
      (kinds[kk].Regex? ==>
        matcher(kinds[kk].expression, source[idx..]) == Some(RegexMatch(r.value.len, r.value.token.captures)))
    decreases |kinds| - k
  {
    if k == |kinds| then None
    else
      match kinds[k]
      case Literal(p) =>
        if source[idx..idx + l] == p then Some(Hit(Token(k, []), |p|))
        else Pass(kinds, matcher, source, idx, l, runRegex, k + 1)
      case Regex(re) =>
        var found := if runRegex then matcher(re, source[idx..]) else None;
        if found.Some? then Some(Hit(Token(k, found.value.captures), found.value.len))
        else Pass(kinds, matcher, source, idx, l, runRegex, k + 1)
  }

  /** The outcome of scanning at one position. */
  datatype Step = Emit(token: Token, len: nat) | Stop(sample: string)

  /**
   * The `'scanner` loop from lookahead `l`: run a pass; if nothing fired and
   * the lookahead cannot grow, switch to the regex pass once and then fail
   * with the examined slice; otherwise grow the lookahead by one.
   */
  function Lookahead(kinds: seq<Kind>, matcher: Matcher, source: string, idx: nat, l: nat, runRegex: bool): (s: Step)
    requires |kinds| > 0 && WellBehaved(matcher)
    requires idx < |source| && 1 <= l && idx + l <= |source|
    ensures s.Emit? ==> 1 <= s.len <= |source| - idx
    decreases (if runRegex then 0 else 1), |source| - l
  {
    match Pass(kinds, matcher, source, idx, l, runRegex, 0)
    case Some(hit) => Emit(hit.token, hit.len)
    case None =>
      if idx + l + 1 > |source| || l + 1 > MaxStaticPatternLen(kinds) then
        if !runRegex then Lookahead(kinds, matcher, source, idx, l, true)
        else Stop(source[idx..idx + l])
      else Lookahead(kinds, matcher, source, idx, l + 1, runRegex)
  }

  /** One iteration of the outer `while idx < source_len` loop. */
  function ScanStep(kinds: seq<Kind>, matcher: Matcher, source: string, idx: nat): (s: Step)
    requires |kinds| > 0 && WellBehaved(matcher) && idx < |source|
    ensures s.Emit? ==> 1 <= s.len <= |source| - idx
  {
    Lookahead(kinds, matcher, source, idx, 1, false)
  }

  /** Put already scanned tokens in front of the outcome of the rest of the scan. */
  function Prepend(prefix: seq<Token>, rest: Result<seq<Token>, Token>): (r: Result<seq<Token>, Token>)
  {
    match rest
    case Ok(ts) => Ok(prefix + ts)
    case Err(e) => Err(e)
  }

  /** The tokens of `source[idx..]`: one step after another until the end or the first failure. */
  function Tokenize(kinds: seq<Kind>, matcher: Matcher, source: string, idx: nat): (r: Result<seq<Token>, Token>)
    requires |kinds| > 0 && WellBehaved(matcher) && idx <= |source|
    decreases |source| - idx
  {
    if idx == |source| then Ok([])
    else
      match ScanStep(kinds, matcher, source, idx)
      case Stop(sample) => Err(ScanError(sample))
      case Emit(t, len) => Prepend([t], Tokenize(kinds, matcher, source, idx + len))
  }

  /** Emitting one token moves it from the rest of the scan onto the scanned prefix. */
  lemma EmitShifts(kinds: seq<Kind>, matcher: Matcher, source: string, idx: nat, tokens: seq<Token>)
    requires |kinds| > 0 && WellBehaved(matcher) && idx < |source|
    requires ScanStep(kinds, matcher, source, idx).Emit?
    ensures var s := ScanStep(kinds, matcher, source, idx);
      Prepend(tokens, Tokenize(kinds, matcher, source, idx)) ==
      Prepend(tokens + [s.token], Tokenize(kinds, matcher, source, idx + s.len))
  {
    var s := ScanStep(kinds, matcher, source, idx);
    match Tokenize(kinds, matcher, source, idx + s.len) {
      case Ok(ts) => assert tokens + ([s.token] + ts) == (tokens + [s.token]) + ts;
      case Err(_) =>
    }
  }

  /**
   * The body of `scan`'s outer loop at position `idx`: the labelled
   * `'scanner` loop that grows the lookahead, flips `run_regex` once and
   * fails with the examined slice. The inner `while` over the kinds stands
   * for the macro's unrolled sequence of `impl_scan!` expansions.
   */
  method ScanAt(kinds: seq<Kind>, matcher: Matcher, source: string, idx: nat) returns (step: Step)
    requires |kinds| > 0 && WellBehaved(matcher) && idx < |source|
    ensures step == ScanStep(kinds, matcher, source, idx)
  {
    var maxLen := MaxStaticPatternLen(kinds);
    var lookahead: nat := 1;
    var runRegex := false;
    while true
      invariant 1 <= lookahead <= MaxLookahead(kinds, source, idx)
      invariant runRegex ==> lookahead == MaxLookahead(kinds, source, idx)
      invariant Lookahead(kinds, matcher, source, idx, lookahead, runRegex) == ScanStep(kinds, matcher, source, idx)
      decreases (if runRegex then 0 else 1), |source| - lookahead
    {
      var k := 0;
      while k < |kinds|
        invariant k <= |kinds|
        invariant Pass(kinds, matcher, source, idx, lookahead, runRegex, 0) == Pass(kinds, matcher, source, idx, lookahead, runRegex, k)
        decreases |kinds| - k
      {
        match kinds[k] {
          case Literal(p) =>
            if source[idx..idx + lookahead] == p {
              return Emit(Token(k, []), |p|);
            }
          case Regex(re) =>
            if runRegex {
              var found := matcher(re, source[idx..]);
              if found.Some? {
                return Emit(Token(k, found.value.captures), found.value.len);
              }
            }
        }
        k := k + 1;
      }
      if idx + lookahead + 1 > |source| || lookahead + 1 > maxLen {
        if !runRegex {
          runRegex := true;
          continue;
        }
        return Stop(source[idx..idx + lookahead]);
      }
      lookahead := lookahead + 1;
    }
  }

  /**
   * `Scanner::scan`: scan from the start to the end of `source`, pushing
   * each emitted token, or return the first `ScanError` and no tokens.
   */
  method Scan(kinds: seq<Kind>, matcher: Matcher, source: string) returns (r: Result<seq<Token>, Token>)
    requires |kinds| > 0 && WellBehaved(matcher)
    ensures r == Tokenize(kinds, matcher, source, 0)
  {
    var tokens: seq<Token> := [];
    var idx: nat := 0;
    match Tokenize(kinds, matcher, source, 0) {
      case Ok(ts) => assert tokens + ts == ts;
      case Err(_) =>
    }
    while idx < |source|
      invariant idx <= |source|
      invariant Tokenize(kinds, matcher, source, 0) == Prepend(tokens, Tokenize(kinds, matcher, source, idx))
      decreases |source| - idx
    {
      var step := ScanAt(kinds, matcher, source, idx);
      match step {
        case Stop(sample) =>
          return Err(ScanError(sample));
        case Emit(t, len) =>
          EmitShifts(kinds, matcher, source, idx, tokens);
          tokens := tokens + [t];
          idx := idx + len;
      }
    }
    assert tokens + [] == tokens;
    return Ok(tokens);
  }
}
