# autoparser, modelled in Dafny

autoparser is a Rust crate whose macros generate a lexer and a recursive-descent
parser. `impl_scanner!` declares the token kinds, each a fixed literal or a
regular expression, in order. It generates `Scanner::scan`, which turns source
text into a list of `Token`s. `impl_rules!` and the tuple impls generate
`Parse::try_parse` for every rule type. Each `try_parse` call reads a
`TokenStream`, which is a shared token list plus a mutable cursor `current`.
A successful call answers with a `ParseMeta { start, end, value }`.

This project models:

- **Scanning** (module `Scanner`, lemmas in `ScannerProperties`).
  - The kinds are a sequence of `Literal(pattern)` and `Regex(expression)`.
  - The regex engine is a function parameter that reports the match length and the capture texts.
  - `ScanAt` and `Scan` are the two nested loops of `scan`. They are proved equal to the specification functions `ScanStep` and `Tokenize`.
  - The lemmas say what a step means:
    - literal competition by growing lookahead;
    - declaration order among literals of equal length;
    - the regex pass only after every literal failed;
    - the form of a `ScanError`;
    - progress.
- **The token stream** (module `Stream`). `TokenStream` is a class with a fixed token sequence and a mutable `current`, together with `peek`, `advance_by` and the derived `Clone`. `ParseMeta` and `box_value` are also here.
- **The combinators** (module `Grammar`, lemmas in `GrammarProperties`).
  - A grammar is a sequence of `Rule`s. A rule is one of:
    - a token (`AnyToken`), `()` (`Unit`), `NoToken` or `Box<T>` (`Boxed`);
    - a tuple (`Seq`);
    - an `enum` arm (`Alt`), or a struct arm with a Rust pattern (`Record`);
    - a use of a named rule type (`Ref`).
  - `Parse` says, for every rule, what `try_parse` returns and where it leaves the caller's cursor.
- **The engine** (module `Engine`). The `try_parse` implementations run as methods on a `TokenStream` object, and every trial runs on a clone. Each method is proved to return `Parse`'s result and to leave `current` where `Parse` says.
- **`max!`** (module `Utils`) sizes the scanner's lookahead.
- **Worked examples** (module `GrammarExamples`) parse `3+4` with an `Expr`/`Op` grammar and a bare pair of tokens.

Behaviours of the code worth knowing:

- With both `EQ => "="` and `EQEQ => "=="` declared, whatever their declaration order, the text `==` scans as two `EQ` tokens, not one `EQEQ`. The lookahead starts at 1, so a literal with a shorter literal as its prefix is never emitted (`ShadowedLiteral`, `EqualsEqualsIsTwoEquals`, `EqualsEqualsIsTwoEqualsEitherOrder`).
- When a record's pattern fails to parse, its own error is returned unchanged (the `?` at src/grammar/macros.rs:11). It is not replaced by `UnexpectedToken`.
- A tuple advances the caller's cursor before it parses each later member. So when a later member fails, the cursor has already moved by the total length of the members before it. That total is 0 when those members are empty (`SeqIsChain`).
- A tuple that succeeds leaves the cursor at the start of its last member. That is the end of its span only when the last member is empty (`PairLeavesCursorOnLastMember`).
- An enum never moves the cursor.
- A record advances the cursor by `end - start`.

## Model

| member | source | states |
|---|---|---|
| Utils.Max | src/utils.rs:3-16 | The result is one of the arguments and no argument exceeds it. |
| Utils.MaxSingleton | src/utils.rs:4 | `max!` of one block is that block's value. |
| Utils.MaxUnfold | src/utils.rs:5-15 | `max!(x, xs..)` is `x` exactly when `x` is strictly greater than the maximum of the rest, and otherwise that maximum. |
| Scanner.StaticLens | src/scanner.rs:88-95 | One length per kind: a literal contributes its pattern length and a regex kind contributes 0. |
| Scanner.MaxStaticPatternLen | src/scanner.rs:86-96 | `MAX_STATIC_PATTERN_LEN` is exactly the length of the longest literal pattern, or 0 when there is none: regex kinds do not count. |
| Scanner.MaxLookahead | src/scanner.rs:99-110 | The largest lookahead reached at `idx` is at least 1 and never runs past the end of the source. |
| Scanner.Pass | src/scanner.rs:133-154 | One pass over the kinds in declaration order returns the first kind that fires, if any. A literal fires when it equals the `l` characters at `idx`; it emits no captures and advances by `l`. A regex fires only in the regex pass; it emits the engine's captures and advances by the match length. No earlier kind fires. With no result, no kind fires. |
| Scanner.Lookahead | src/scanner.rs:62-111 | A token emitted by the `'scanner` loop consumes between 1 and the remaining number of characters. |
| Scanner.ScanStep | src/scanner.rs:58-111 | A step at `idx` that emits consumes at least one character and stays inside the source. |
| Scanner.EmitShifts | src/scanner.rs:150-152 | Pushing the emitted token and advancing `idx` by its length leaves the overall scan result unchanged. |
| Scanner.ScanAt | src/scanner.rs:59-111 | The imperative `'scanner` loop (growing lookahead, one switch to the regex pass, then `ScanError` with the examined slice) returns exactly `ScanStep`. |
| Scanner.Scan | src/scanner.rs:52-115 | The imperative `scan` returns exactly `Tokenize`: the tokens in source order, or the first `ScanError`. |
| ScannerProperties.LookaheadMeaning | src/scanner.rs:62-111 | From any reachable loop state the step means one of three things. (1) A literal token whose pattern is the next `len` characters, with no literal at any shorter lookahead and no earlier literal at this one. (2) A regex token, with no literal at any lookahead and every earlier regex kind finding nothing. (3) A failure whose sample is the slice at the largest lookahead, with no kind matching at all. |
| ScannerProperties.ScanStepMeaning | src/scanner.rs:58-111 | Every scanning step has the meaning stated for `LookaheadMeaning`. |
| ScannerProperties.LiteralAtIsPrefix | src/scanner.rs:148-149 | The literal comparison at the pattern's own length holds exactly when the pattern is a prefix of the rest of the source. |
| ScannerProperties.LiteralWins | src/scanner.rs:147-154 | When a non-empty literal starts the rest of the source, a literal token is emitted and never a regex one. It is no longer than that literal. Among literals of the same length, the earliest declared wins. |
| ScannerProperties.ShadowedLiteral | src/scanner.rs:59-110 | A literal that has another non-empty literal as a proper prefix is never emitted. |
| ScannerProperties.EqualsEqualsIsTwoEquals | src/scanner.rs:147-154 | With `"="` declared before `"=="`, the text `==` scans as two `"="` tokens. |
| ScannerProperties.EqualsEqualsIsTwoEqualsEitherOrder | src/scanner.rs:147-154 | With `"=="` declared before `"="`, the text `==` still scans as two `"="` tokens. |
| ScannerProperties.TokenizeFailure | src/scanner.rs:99-107 | A scan fails only with a `ScanError`. Its sample is the non-empty slice at the largest lookahead of a position where the step stopped. |
| ScannerProperties.TokenizeCount | src/scanner.rs:58-114 | A successful scan yields at most one token per character, and at least one token for non-empty input. |
| Stream.BoxValue | src/grammar/mod.rs:51-59 | Boxing keeps the span and wraps the same value. |
| Stream.TokenStream.constructor | src/grammar/mod.rs:18-20 | A new stream is at position 0 over the given tokens. |
| Stream.TokenStream.Peek | src/grammar/mod.rs:22-24 | `peek` returns a token exactly when the cursor is before the end, and that token is the one at the cursor. |
| Stream.TokenStream.AdvanceBy | src/grammar/mod.rs:26-30 | `advance_by(n)` returns what `peek` saw and moves the cursor by exactly `n`, past the end too. |
| Stream.TokenStream.Clone | src/grammar/mod.rs:11-15 | A clone is a new stream over the same tokens at the same position. |
| Stream.TrialLeavesOriginal | src/grammar/macros.rs:11 | Advancing a clone reports what the original would peek and leaves the original's cursor where it was. |
| Grammar.Members | src/grammar/macros.rs:35-40 | A tuple or an enum has at least one member. |
| Grammar.Match | src/grammar/macros.rs:12 | Destructuring a parsed value against a struct arm's pattern. On success it yields exactly as many values as the pattern binds (one per field name or token pattern). A field name binds the value itself, and `_` binds nothing; both always match. `Token::K { .. }` matches exactly a token of kind `K` and binds that token. |
| Grammar.ErrorAt | src/grammar/macros.rs:25-27 | The fallback error is `UnexpectedToken` with the token at the cursor exactly when one exists, and `Eof` otherwise. |
| Grammar.Parse | src/grammar/mod.rs:61-71 | A completed parse never moves the caller's cursor backwards. A successful parse spans from the entry position, never claims tokens past the end unless it is empty, and leaves the cursor no further than its end. |
| Grammar.ParseAlt | src/grammar/macros.rs:43-74 | An enum never moves the caller's cursor, and a success spans from the entry position. |
| Grammar.ParseSeq | src/grammar/macros.rs:100-120 | The rest of a tuple never moves the cursor backwards. A success spans from the first member's start and leaves the cursor no further than its end. |
| GrammarProperties.RecordRule | src/grammar/macros.rs:9-30 | A struct arm propagates the pattern's error unchanged without moving the cursor. On a shape match it returns the bound fields over the pattern's span and commits the cursor to the span's end. On a mismatch it reports the token at the cursor (or `Eof`) and does not move it. |
| GrammarProperties.FieldNamesBindInOrder | src/grammar/macros.rs:12-19 | A tuple of field names over a tuple value of the same length binds the tuple's items, in order, as the struct's fields. |
| GrammarProperties.RecordOfTokenKind | src/grammar/macros.rs:9-30 | A struct arm over a `Token::K { .. }` pattern parses exactly when the token at the cursor has kind `K`: on success it spans that token and commits the cursor past it, and otherwise it reports that token as unexpected without moving the cursor. |
| GrammarProperties.BoxIsTransparent | src/grammar/mod.rs:74-78 | `Box<T>` has exactly `T`'s outcome, span and cursor effect. |
| GrammarProperties.AltFirstSuccess | src/grammar/macros.rs:43-74 | When alternative `k` parses and every earlier one fails, the enum returns `k`'s value, tagged `k`, over its span. The cursor does not move. |
| GrammarProperties.AltFirstSuccessFrom | src/grammar/macros.rs:57-69 | The same as `AltFirstSuccess`, for the alternatives from any index on. |
| GrammarProperties.AltEarlierWins | src/grammar/macros.rs:45-55 | If the first alternative parses, it is chosen whatever the others do. |
| GrammarProperties.AltAllFail | src/grammar/macros.rs:71-73 | When every alternative fails, their errors are dropped. The enum reports the token at the entry position (or `Eof`) and does not move the cursor. |
| GrammarProperties.AltAllFailFrom | src/grammar/macros.rs:57-73 | The same as `AltAllFail`, for the alternatives from any index on. |
| GrammarProperties.SeqTail | src/grammar/macros.rs:102-120 | After member `i - 1`, the rest of a tuple is the contiguous chain of the remaining members starting at that member's end. |
| GrammarProperties.SeqIsChain | src/grammar/macros.rs:88-120 | A tuple parses its members back to back. Its span runs from the first member's start to the last member's end. A failing member's error comes back unchanged. The cursor ends at the start of the last member parsed. |
| GrammarExamples.OpParsesPlus | src/grammar/macros.rs:43-55 | `Op => Plus \| Star` at a `+` token is `Op::Plus` over that token, with the cursor unmoved. |
| GrammarExamples.TripleParses | src/grammar/macros.rs:88-120 | `(Token, Op, Token)` over `3+4` spans all three tokens and leaves the cursor at 2. |
| GrammarExamples.ExprShapeBinds | src/grammar/macros.rs:12 | The pattern `(Token::Num, op, Token::Num)` binds both numbers and the operator. |
| GrammarExamples.ExprParsesThreePlusFour | src/grammar/macros.rs:9-21 | `3+4` parses as `Expr` over all three tokens and commits the cursor to 3. |
| GrammarExamples.PairLeavesCursorOnLastMember | src/grammar/macros.rs:100-120 | `(Token, Token)` over two tokens spans `[0, 2)` but leaves the cursor at 1. |
| Engine.TokenTryParse | src/scanner.rs:118-127 | `Token::try_parse` returns the token at the cursor with span `[current, current + 1)`, or `Eof`. It moves the cursor by one in both cases. |
| Engine.UnitTryParse | src/grammar/mod.rs:80-88 | `()` succeeds with the empty span at the cursor. |
| Engine.NoTokenTryParse | src/grammar/mod.rs:90-100 | `NoToken` succeeds with the empty span at the cursor. |
| Engine.ErrorHere | src/grammar/macros.rs:25-27 | `UnexpectedToken { token: peek().ok_or(Eof)? }` is the fallback error at the stream's cursor. |
| Engine.TryParse | src/grammar/mod.rs:32-35 | `TokenStream::try_parse` returns `Parse`'s outcome and leaves `current` at `Parse`'s cursor. |
| Engine.BoxTryParse | src/grammar/mod.rs:74-78 | The `Box<T>` impl returns `Parse`'s outcome and leaves `current` at `Parse`'s cursor. |
| Engine.RecordTryParse | src/grammar/macros.rs:9-30 | The struct arm, run on a clone and then `advance_by(end - start)`, returns `Parse`'s outcome and leaves `current` at `Parse`'s cursor. |
| Engine.AltTryParse | src/grammar/macros.rs:43-74 | The enum arm, with every alternative tried on a clone, returns `Parse`'s outcome and never moves `current`. |
| Engine.SeqTryParse | src/grammar/macros.rs:88-121 | The tuple impl returns `Parse`'s outcome. It advances `current` before each later member, and `current` ends at `Parse`'s cursor. |

## Left out

- Macro expansion itself is not modelled: `#[derive]`, the generated Rust types, and the fixed tuple arities 1 to 12. Grammars are values of `Rule`, and tuples and enums have any number of members.
- The regular-expression engine (the `ctreg` regexes) is a function parameter. The scanner requires it to be well behaved (`Scanner.WellBehaved`): every reported match has length at least 1 and at most the rest of the input. The crate relies on a match starting at the current position, since it uses only the length of `find`'s match. A zero-length match would make `scan` loop forever, and that case is excluded.
- Converting captures with `FromStr` (and the `unwrap` panics there) is not modelled. A regex token keeps its capture texts as strings.
- Source text is a sequence of characters. Byte-length slicing of UTF-8 and panics at non-character boundaries are not modelled.
- `Source.name` is not modelled, because scanning never reads it.
- `ParseError::MissingImplementation` is declared, but nothing produces it.
- Stack overflow on left-recursive grammars is not modelled. `Parse` and the engine take a fuel bound on `Ref`, and the `Stuck` outcome stands for fuel running out or for a rule index outside the grammar (a Rust compile error).
- Grammar.Match: the struct arm's Rust pattern is modelled as a `Pattern` whose result is the bound values in order. `Token::K { .. }` binds the whole token, and literal sub-patterns of token captures are not modelled.
- `usize` overflow of `current` and of `idx` is not modelled: positions are unbounded naturals.
- The `From<&Vec<T>>` conversion for `TokenStream` is not modelled, because it only calls `TokenStream::new`.
- The `Parse` trait's documentation does not say where the cursor must end. The model states each impl's actual effect.
