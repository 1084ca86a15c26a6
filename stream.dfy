/**
 * The cursor and the span wrapper (src/grammar/mod.rs): a token stream is a
 * shared, never-modified token sequence plus a mutable position `current`;
 * duplicating it gives an independent position over the same tokens, which
 * is how every combinator makes a trial parse.
 */
module Stream {
  import opened Lib

  /** `ParseMeta<T>`: a parsed value with the token span `[start, end)` it covers. */
  datatype ParseMeta<+T> = ParseMeta(start: nat, end: nat, value: T)

  /** `Box<T>`: the heap indirection that lets a rule refer to itself. */
  datatype Box<+T> = Box(inner: T)

  /** `ParseMeta::box_value`: the same span around the boxed value. */
  function BoxValue<T>(m: ParseMeta<T>): (b: ParseMeta<Box<T>>)
    ensures b.start == m.start && b.end == m.end && b.value.inner == m.value
  {
    ParseMeta(m.start, m.end, Box(m.value))
  }

  /** `TokenStream<Tok>`; `current` is unbounded, so it may pass the end. */
  class TokenStream<Tok> {
    const tokens: seq<Tok>
    var current: nat

    /** `TokenStream::new`: a cursor at position 0. */
    constructor (tokens: seq<Tok>)
      ensures this.tokens == tokens && current == 0
    {
      this.tokens := tokens;
      current := 0;
    }

    /** `peek`: the token at the cursor, or nothing once the cursor is at or past the end. */
    function Peek(): (t: Option<Tok>)
      reads this
      ensures t.Some? <==> current < |tokens|
      ensures t.Some? ==> t.value == tokens[current]
    {
      if current < |tokens| then Some(tokens[current]) else None
    }

    /** `advance_by`: returns what `peek` saw and moves the cursor by exactly `n`, past the end too. */
    method AdvanceBy(n: nat) returns (t: Option<Tok>)
      modifies this
      ensures t == old(Peek())
      ensures current == old(current) + n
    {
      t := Peek();
      current := current + n;
    }

    /** The derived `Clone`: a new cursor at the same position over the same tokens. */
    method Clone() returns (c: TokenStream<Tok>)
      ensures fresh(c)
      ensures c.tokens == tokens && c.current == current
    {
      c := new TokenStream(tokens);
      c.current := current;
    }
  }

  /**
   * A trial on a duplicate: advancing the clone, by any amount, reports
   * what the original would have peeked and leaves the original's position
   * where it was.
   */
  method TrialLeavesOriginal<Tok>(s: TokenStream<Tok>, n: nat) returns (t: Option<Tok>)
    ensures t == s.Peek()
    ensures s.current == old(s.current)
  {
    var c := s.Clone();
    t := c.AdvanceBy(n);
  }
}
