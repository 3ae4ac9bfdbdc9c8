/** The opts string: percent-encoded `key=value` pairs joined with `&` (itb3/opts.py).
    Text is taken as the bytes of its UTF-8 form; the rendered string is ASCII, so it is a
    byte sequence too. The reader is the inverse that sections 2.1 and 2.4 of RFC 3986
    describe: split on the delimiters first, decode afterwards. */
module Opts {
  import opened Octets
  import opened Wrappers

  type Pairs = seq<(Bytes, Bytes)>

  const AMP: Byte := 38
  const COMMA: Byte := 44
  const EQUALS: Byte := 61
  const PERCENT: Byte := 37

  /** Left alone by quote: the unreserved characters of section 2.3 of RFC 3986, and the
      comma that _enc adds. */
  predicate Safe(b: Byte) {
    48 <= b <= 57 || 65 <= b <= 90 || 97 <= b <= 122 ||
    b == 45 || b == 46 || b == 95 || b == 126 || b == COMMA
  }

  /** An upper-case hexadecimal digit. */
  function Hex(d: nat): (c: Byte)
    requires d < 16
  {
    if d < 10 then 48 + d else 55 + d
  }

  function Digit(c: Byte): (r: Option<nat>)
    ensures r.Some? ==> r.value < 16
  {
    if 48 <= c <= 57 then Some(c - 48)
    else if 65 <= c <= 70 then Some(c - 55)
    else if 97 <= c <= 102 then Some(c - 87)
    else None
  }

  function QuoteByte(b: Byte): (s: Bytes) {
    if Safe(b) then [b] else [PERCENT, Hex(b / 16), Hex(b % 16)]
  }

  /** _enc. */
  function Quote(s: Bytes): (r: Bytes) {
    if s == [] then [] else QuoteByte(s[0]) + Quote(s[1..])
  }

  /** The reader's percent-decoding; a `%` without two hexadecimal digits is malformed. */
  function Unquote(s: Bytes): (r: Option<Bytes>) {
    if s == [] then Some([])
    else if s[0] != PERCENT then
      var rest := Unquote(s[1..]);
      if rest.None? then None else Some([s[0]] + rest.value)
    else if |s| < 3 || Digit(s[1]).None? || Digit(s[2]).None? then None
    else
      var rest := Unquote(s[3..]);
      if rest.None? then None else Some([16 * Digit(s[1]).value + Digit(s[2]).value] + rest.value)
  }

  function Render(pair: (Bytes, Bytes)): Bytes {
    Quote(pair.0) + [EQUALS] + Quote(pair.1)
  }

  /** "&".join over the rendered pairs. */
  function Join(pairs: Pairs): (r: Bytes) {
    if pairs == [] then []
    else if |pairs| == 1 then Render(pairs[0])
    else Render(pairs[0]) + [AMP] + Join(pairs[1..])
  }

  /** The position of the first `c`, or the length. */
  function Find(s: Bytes, c: Byte): (n: nat)
    ensures n <= |s| && c !in s[..n]
    ensures n < |s| ==> s[n] == c
  {
    if s == [] || s[0] == c then 0
    else
      assert forall k :: 0 < k <= |s| ==> s[..k] == [s[0]] + s[1..][..k - 1];
      1 + Find(s[1..], c)
  }

  /** Split on `&`; every piece, the last one included, is a pair. */
  function Pieces(s: Bytes): (r: seq<Bytes>) {
    var n := Find(s, AMP);
    if n == |s| then [s] else [s[..n]] + Pieces(s[n + 1..])
  }

  /** Split on the first `=`, then decode both sides. */
  function ReadPair(piece: Bytes): (r: Option<(Bytes, Bytes)>) {
    var n := Find(piece, EQUALS);
    if n == |piece| then None
    else
      var key, value := Unquote(piece[..n]), Unquote(piece[n + 1..]);
      if key.None? || value.None? then None else Some((key.value, value.value))
  }

  function ReadPairs(pieces: seq<Bytes>): (r: Option<Pairs>) {
    if pieces == [] then Some([])
    else
      var first, rest := ReadPair(pieces[0]), ReadPairs(pieces[1..]);
      if first.None? || rest.None? then None else Some([first.value] + rest.value)
  }

  function Read(s: Bytes): (r: Option<Pairs>) {
    if s == [] then Some([]) else ReadPairs(Pieces(s))
  }

  /** Opts. */
  class Opts {
    var pairs: Pairs

    constructor ()
      ensures pairs == []
    {
      pairs := [];
    }

    /** with_raw: appends in place and returns the same object for chaining. */
    method WithRaw(key: Bytes, value: Bytes) returns (self: Opts)
      modifies this
      ensures self == this && pairs == old(pairs) + [(key, value)]
    {
      pairs := pairs + [(key, value)];
      self := this;
    }

    /** build: the reader gets back exactly the pairs that were added, in order. */
    method Build() returns (r: Bytes)
      ensures r == Join(pairs) && Read(r) == Some(pairs)
    {
      r := Join(pairs);
      ReadUndoesJoin(pairs);
    }
  }

  /** What quote renders holds no delimiter, so the delimiters are only those of Join. */
  lemma {:induction false} QuoteHidesDelimiters(s: Bytes)
    ensures AMP !in Quote(s) && EQUALS !in Quote(s)
  {
    if s != [] {
      QuoteHidesDelimiters(s[1..]);
      assert AMP !in QuoteByte(s[0]) && EQUALS !in QuoteByte(s[0]);
    }
  }

  /** Everything that comes out is a safe character or an escape with capital digits. */
  lemma {:induction false} QuoteIsPrintable(s: Bytes)
    ensures forall b :: b in Quote(s) ==> Safe(b) || b == PERCENT
  {
    if s != [] {
      QuoteIsPrintable(s[1..]);
      assert forall b :: b in QuoteByte(s[0]) ==> Safe(b) || b == PERCENT;
    }
  }

  /** What needs no escape: the characters section 2.3 of RFC 3986 leaves unreserved, and the
      comma of the lists. */
  predicate PassesAsIs(c: char) {
    'A' <= c <= 'Z' || 'a' <= c <= 'z' || '0' <= c <= '9' || c in "-._~,"
  }

  lemma EscapeOf(b: Byte)
    requires !PassesAsIs(b as char)
    ensures var digits := "0123456789ABCDEF";
      Quote([b]) == ['%' as Byte, digits[b / 16] as Byte, digits[b % 16] as Byte]
  {
    var none: Bytes := [];
    assert [b][1..] == none && Quote(none) == none;
    assert Quote([b]) == QuoteByte(b);
  }

  function Escapes(s: Bytes): nat {
    if s == [] then 0 else (if PassesAsIs(s[0] as char) then 0 else 1) + Escapes(s[1..])
  }

  /** Exactly the bytes that need one are escaped: each of them grows to three, and a text is
      left as it is exactly when it holds none. */
  lemma {:induction false} QuoteEscapesExactly(s: Bytes)
    ensures |Quote(s)| == |s| + 2 * Escapes(s)
    ensures Quote(s) == s <==> forall b :: b in s ==> PassesAsIs(b as char)
  {
    if s != [] {
      var rest := s[1..];
      QuoteEscapesExactly(rest);
      assert s == [s[0]] + rest;
      assert forall b :: b in s <==> b == s[0] || b in rest;
      if PassesAsIs(s[0] as char) {
        assert Quote(s)[0] == s[0] && Quote(s)[1..] == Quote(rest);
        assert Quote(s) == s <==> Quote(rest) == rest;
      } else {
        assert s[0] in s && |Quote(s)| > |s|;
      }
    }
  }

  lemma {:induction false} UnquoteUndoesQuote(s: Bytes)
    ensures Unquote(Quote(s)) == Some(s)
  {
    if s != [] {
      UnquoteUndoesQuote(s[1..]);
      var q, rest := QuoteByte(s[0]), Quote(s[1..]);
      assert (q + rest)[|q|..] == rest;
      assert s == [s[0]] + s[1..];
      if !Safe(s[0]) {
        assert s[0] == 16 * (s[0] / 16) + s[0] % 16;
        assert Digit(Hex(s[0] / 16)) == Some(s[0] / 16) && Digit(Hex(s[0] % 16)) == Some(s[0] % 16);
      }
    }
  }

  lemma FindAt(a: Bytes, c: Byte, b: Bytes)
    requires c !in a
    ensures Find(a + [c] + b, c) == |a|
  {
    var s := a + [c] + b;
    assert s[|a|] == c && s[..|a|] == a;
    assert forall k :: 0 <= k < |a| ==> s[k] == a[k];
  }

  lemma FindNone(a: Bytes, c: Byte)
    requires c !in a
    ensures Find(a, c) == |a|
  {
  }

  lemma ReadPairUndoesRender(pair: (Bytes, Bytes))
    ensures AMP !in Render(pair)
    ensures ReadPair(Render(pair)) == Some(pair)
  {
    var k, v := Quote(pair.0), Quote(pair.1);
    QuoteHidesDelimiters(pair.0);
    QuoteHidesDelimiters(pair.1);
    FindAt(k, EQUALS, v);
    assert (k + [EQUALS] + v)[..|k|] == k && (k + [EQUALS] + v)[|k| + 1..] == v;
    UnquoteUndoesQuote(pair.0);
    UnquoteUndoesQuote(pair.1);
  }

  lemma ReadMore(piece: Bytes, pair: (Bytes, Bytes), pieces: seq<Bytes>, pairs: Pairs)
    requires ReadPair(piece) == Some(pair) && ReadPairs(pieces) == Some(pairs)
    ensures ReadPairs([piece] + pieces) == Some([pair] + pairs)
  {
    assert ([piece] + pieces)[1..] == pieces;
  }

  lemma PiecesOfMore(first: Bytes, rest: Bytes)
    requires AMP !in first
    ensures Pieces(first) == [first]
    ensures Pieces(first + [AMP] + rest) == [first] + Pieces(rest)
  {
    FindNone(first, AMP);
    FindAt(first, AMP, rest);
    assert (first + [AMP] + rest)[..|first|] == first;
    assert (first + [AMP] + rest)[|first| + 1..] == rest;
  }

  lemma {:induction false} PiecesUndoJoin(pairs: Pairs)
    requires pairs != []
    ensures ReadPairs(Pieces(Join(pairs))) == Some(pairs)
  {
    var first, rest := Render(pairs[0]), Join(pairs[1..]);
    ReadPairUndoesRender(pairs[0]);
    PiecesOfMore(first, rest);
    assert pairs == [pairs[0]] + pairs[1..];
    if |pairs| == 1 {
      ReadMore(first, pairs[0], [], []);
      assert [first] + [] == [first];
    } else {
      PiecesUndoJoin(pairs[1..]);
      ReadMore(first, pairs[0], Pieces(rest), pairs[1..]);
    }
  }

  /** For every list of pairs, empty keys and values included. */
  lemma ReadUndoesJoin(pairs: Pairs)
    ensures Read(Join(pairs)) == Some(pairs)
  {
    if pairs != [] {
      assert EQUALS in Render(pairs[0]);
      PiecesUndoJoin(pairs);
    }
  }

  /** Two different lists of options never render to the same string. */
  lemma JoinIsInjective(a: Pairs, b: Pairs)
    ensures Join(a) == Join(b) <==> a == b
  {
    ReadUndoesJoin(a);
    ReadUndoesJoin(b);
  }
}
