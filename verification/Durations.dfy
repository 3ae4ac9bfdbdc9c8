/** Go-style durations: the parser and the printer of loop/size.py:69-100 and 141-169.
    The accumulator, a binary float in the source, is an exact number here. `alpha` is
    Python's one-character isalpha; all that is used of it is stated in Alphabet. */
module Durations {
  import opened Wrappers
  import opened Decimals

  datatype Unit = Unit(name: string, ns: nat)

  /** The units in the order the grammar probes them. */
  const UNITS: seq<Unit> := [
    Unit("ns", 1), Unit("us", 1_000), Unit("ms", 1_000_000),
    Unit("s", 1_000_000_000), Unit("m", 60_000_000_000), Unit("h", 3_600_000_000_000)]

  // 9.2e18: the largest accepted number of nanoseconds.
  const LIMIT: nat := 9_200_000_000_000_000_000

  ghost predicate Alphabet(alpha: char -> bool) {
    alpha('s') && !alpha('.') && forall c :: IsDigit(c) ==> !alpha(c)
  }

  /** [0-9.] */
  predicate InNumber(c: char) {
    IsDigit(c) || c == '.'
  }

  /** The length of the match of [0-9.]+ at the start of `s`; 0 for no match. */
  function NumberLength(s: string): (n: nat)
    ensures n <= |s| && (forall k :: 0 <= k < n ==> InNumber(s[k])) && (n < |s| ==> !InNumber(s[n]))
  {
    if s == "" || !InNumber(s[0]) then 0 else 1 + NumberLength(s[1..])
  }

  /** The position of the first point, or the length. */
  function Point(t: string): (p: nat)
    ensures p <= |t| && (forall k :: 0 <= k < p ==> t[k] != '.') && (p < |t| ==> t[p] == '.')
  {
    if t == "" || t[0] == '.' then 0 else 1 + Point(t[1..])
  }

  function Left(t: string): string {
    t[..Point(t)]
  }

  function Right(t: string): string {
    if Point(t) == |t| then "" else t[Point(t) + 1..]
  }

  /** What float() accepts among the matches: one point at most and one digit at least. */
  predicate IsFloat(t: string) {
    AllDigits(Left(t)) && AllDigits(Right(t)) && |Left(t)| + |Right(t)| > 0
  }

  /** The value of token `t` in units of `ns` nanoseconds, as a multiple of 10^-scale
      nanoseconds. The tokens of a text never have more decimals than the text has
      characters. */
  function Term(t: string, ns: nat, scale: nat): nat {
    if IsFloat(t) && |Right(t)| <= scale then
      var digits: nat := Val(Left(t) + Right(t)) * ns;
      digits * Pow10(scale - |Right(t)|)
    else 0
  }

  /** What a token is worth in a unit of the given size. */
  type Amount = (string, nat) -> nat

  function AtScale(scale: nat): Amount {
    (t, ns) => Term(t, ns, scale)
  }

  /** A unit matches when it is next and no letter follows it. */
  predicate Matches(alpha: char -> bool, s: string, unit: Unit) {
    unit.name <= s && (|s| > |unit.name| ==> !alpha(s[|unit.name|]))
  }

  /** The first matching unit from the i-th on. */
  function Probe(alpha: char -> bool, s: string, i: nat): (r: Option<Unit>)
    requires i <= |UNITS|
    ensures r.Some? ==> r.value in UNITS && r.value.name <= s
    decreases |UNITS| - i
  {
    if i == |UNITS| then None
    else if Matches(alpha, s, UNITS[i]) then Some(UNITS[i])
    else Probe(alpha, s, i + 1)
  }

  /** The number and the unit that `s` starts with. */
  function Next(alpha: char -> bool, s: string): (r: Option<(string, Unit)>)
    ensures r.Some? ==> 0 < |r.value.0| + |r.value.1.name| <= |s|
  {
    var n := NumberLength(s);
    if n == 0 || !IsFloat(s[..n]) then None
    else
      var unit := Probe(alpha, s[n..], 0);
      if unit.None? then None else Some((s[..n], unit.value))
  }

  /** A reader of one term; what it takes is not empty. */
  type Lexer = next: string -> Option<(string, Unit)> |
    forall s :: next(s).Some? ==> 0 < |next(s).value.0| + |next(s).value.1.name| <= |s|
    witness s => None

  function LexerOf(alpha: char -> bool): Lexer {
    s => Next(alpha, s)
  }

  /** The sum over the terms of `s`; 0 when nothing is left. */
  function Total(next: Lexer, amount: Amount, s: string): (r: Option<nat>)
    decreases |s|
  {
    if s == "" then Some(0)
    else if next(s).None? then None
    else
      var (t, unit) := next(s).value;
      Ahead(amount(t, unit.ns), Total(next, amount, s[|t| + |unit.name|..]))
  }

  /** The exact total must not exceed the limit; it is cut off at whole nanoseconds. */
  function Cut(total: Option<nat>, p: nat): Option<nat>
    requires p > 0
  {
    if total.None? || total.value > LIMIT * p then None else Some(Quotient(total.value, p))
  }

  /** A scale at which every term of `s` is a whole number. */
  function ScaleOf(s: string): nat {
    |s| + 9
  }

  function Parse(alpha: char -> bool, s: string): (r: Option<nat>) {
    if s == "" then None else Cut(Total(LexerOf(alpha), AtScale(ScaleOf(s)), s), Pow10(ScaleOf(s)))
  }

  function Ahead(sum: nat, rest: Option<nat>): Option<nat> {
    if rest.None? then None else Some(sum + rest.value)
  }

  /** `t` and `unit` are the first term of `s`, and `rest` is what follows it. */
  ghost predicate Splits(next: Lexer, s: string, t: string, unit: Unit, rest: string) {
    s != "" && next(s) == Some((t, unit)) && rest == s[|t| + |unit.name|..]
  }

  lemma Advance(next: Lexer, amount: Amount, s: string, t: string, unit: Unit, rest: string, total: nat)
    requires Splits(next, s, t, unit, rest)
    ensures Ahead(total, Total(next, amount, s)) ==
      Ahead(total + amount(t, unit.ns), Total(next, amount, rest))
  {
  }

  lemma Stop(next: Lexer, amount: Amount, s: string)
    requires s != "" && next(s).None?
    ensures Total(next, amount, s).None?
  {
  }

  /** The sum so far, when one more term is taken. */
  lemma Continue(next: Lexer, amount: Amount, s: string, t: string, unit: Unit, rest: string,
                 total: nat, all: Option<nat>)
    requires Splits(next, s, t, unit, rest) && all == Ahead(total, Total(next, amount, s))
    ensures all == Ahead(total + amount(t, unit.ns), Total(next, amount, rest))
  {
    Advance(next, amount, s, t, unit, rest, total);
  }

  lemma Refuse(next: Lexer, amount: Amount, s: string, total: nat, all: Option<nat>)
    requires s != "" && next(s).None? && all == Ahead(total, Total(next, amount, s))
    ensures all == None
  {
    Stop(next, amount, s);
  }

  /** The probing loop of parse_duration. */
  method FindUnit(alpha: char -> bool, s: string) returns (r: Option<Unit>)
    ensures r == Probe(alpha, s, 0)
  {
    var i := 0;
    while i < |UNITS|
      invariant i <= |UNITS| && Probe(alpha, s, 0) == Probe(alpha, s, i)
    {
      if Matches(alpha, s, UNITS[i]) {
        return Some(UNITS[i]);
      }
      i := i + 1;
    }
    return None;
  }

  lemma DropTwice(s: string, pos: nat, k: nat)
    requires pos + k <= |s|
    ensures s[pos..][k..] == s[pos + k..]
  {
  }

  ghost predicate Agrees(next: Lexer, alpha: char -> bool) {
    forall s {:trigger Next(alpha, s)} :: next(s) == Next(alpha, s)
  }

  /** The body of the loop of parse_duration up to the sum: the next term, read at a position
      of the text. */
  method ReadTerm(alpha: char -> bool, ghost next: Lexer, s: string, pos: nat)
    returns (r: Option<(string, Unit)>, end: nat)
    requires pos < |s| && Agrees(next, alpha)
    ensures r == next(s[pos..])
    ensures r.Some? ==> pos < end <= |s| && Splits(next, s[pos..], r.value.0, r.value.1, s[end..])
  {
    assert next(s[pos..]) == Next(alpha, s[pos..]);
    var n := NumberLength(s[pos..]);
    var token := s[pos..][..n];
    if n == 0 || !IsFloat(token) {
      return None, pos;
    }
    var unit := FindUnit(alpha, s[pos..][n..]);
    if unit.None? {
      return None, pos;
    }
    DropTwice(s, pos, n + |unit.value.name|);
    return Some((token, unit.value)), pos + n + |unit.value.name|;
  }

  /** The loop of parse_duration. */
  method SumTerms(alpha: char -> bool, ghost next: Lexer, amount: Amount, s: string) returns (r: Option<nat>)
    requires Agrees(next, alpha)
    ensures r == Total(next, amount, s)
  {
    var total: nat := 0;
    var pos := 0;
    ghost var all, here := Total(next, amount, s), s;
    while pos < |s|
      invariant pos <= |s| && here == s[pos..] && all == Ahead(total, Total(next, amount, here))
    {
      var term, end := ReadTerm(alpha, next, s, pos);
      if term.None? {
        Refuse(next, amount, here, total, all);
        return None;
      }
      Continue(next, amount, here, term.value.0, term.value.1, s[end..], total, all);
      total := total + amount(term.value.0, term.value.1.ns);
      pos, here := end, s[end..];
    }
    return Some(total);
  }

  /** parse_duration. */
  method ParseDuration(alpha: char -> bool, s: string) returns (r: Option<nat>)
    ensures r == Parse(alpha, s)
  {
    if s == "" {
      return None;
    }
    var total := SumTerms(alpha, LexerOf(alpha), AtScale(ScaleOf(s)), s);
    return Cut(total, Pow10(ScaleOf(s)));
  }

  /** _fraction. */
  function Fraction(frac: nat): string {
    if frac == 0 then "" else "." + Strip(Fill(Decimal(frac), 9))
  }

  function Number(whole: nat, frac: nat): string {
    Decimal(whole) + Fraction(frac)
  }

  /** The worth of a printed number in billionths of a nanosecond. */
  function WorthOf(whole: nat, frac: nat, ns: nat): nat {
    (whole * 1_000_000_000 + frac) * ns
  }

  /** A term to print: a number with up to nine decimals, and its unit. */
  datatype Piece = Piece(whole: nat, frac: nat, unit: Unit) {
    predicate Valid() {
      frac < 1_000_000_000 && unit in UNITS
    }

    function Worth(): nat {
      WorthOf(whole, frac, unit.ns)
    }
  }

  const MS := Unit("ms", 1_000_000)
  const SECOND := Unit("s", 1_000_000_000)
  const MINUTE := Unit("m", 60_000_000_000)
  const HOUR := Unit("h", 3_600_000_000_000)

  /** "[Hh][Mm]Ss": the minutes appear when the hours do, or when there are any; the
      milliseconds' remainder is scaled to nine digits. */
  function Pieces(ns: nat): (r: seq<Piece>)
    ensures r != [] && forall piece :: piece in r ==> piece.Valid()
  {
    if ns == 0 then [Piece(0, 0, SECOND)]
    else if ns < 1_000_000_000 then [Piece(ns / 1_000_000, ns % 1_000_000 * 1000, MS)]
    else
      var hours, rem := ns / 3_600_000_000_000, ns % 3_600_000_000_000;
      var minutes, rest := rem / 60_000_000_000, rem % 60_000_000_000;
      var seconds := Piece(rest / 1_000_000_000, rest % 1_000_000_000, SECOND);
      if hours > 0 then [Piece(hours, 0, HOUR), Piece(minutes, 0, MINUTE), seconds]
      else if minutes > 0 then [Piece(minutes, 0, MINUTE), seconds]
      else [seconds]
  }

  function Worth(pieces: seq<Piece>): nat {
    if pieces == [] then 0 else pieces[0].Worth() + Worth(pieces[1..])
  }

  function Shown(piece: Piece, rest: string): string {
    Number(piece.whole, piece.frac) + (piece.unit.name + rest)
  }

  function Text(pieces: seq<Piece>): (r: string)
    ensures pieces != [] ==> r != "" && IsDigit(r[0])
  {
    if pieces == [] then "" else Shown(pieces[0], Text(pieces[1..]))
  }

  function Abs(n: int): nat {
    if n < 0 then -n else n
  }

  /** human_duration. */
  function Human(ns: int): string {
    Text(Pieces(Abs(ns)))
  }

  lemma NinthPower()
    ensures Pow10(9) == 1_000_000_000
  {
    assert Pow10(3) == 1000;
    Pow10Adds(3, 3);
    Pow10Adds(6, 3);
  }

  lemma Associate(v: nat, ns: nat, a: nat, b: nat, c: nat)
    ensures v * ns * c * (a * b) == (v * a) * ns * (b * c)
  {
    assert v * ns * c * (a * b) == v * ns * (c * (a * b));
    assert c * (a * b) == a * (b * c);
    assert v * ns * (a * (b * c)) == (v * ns * a) * (b * c);
    assert v * ns * a == v * a * ns;
  }

  lemma Rescale(v: nat, ns: nat, k: nat, x: nat, scale: nat)
    requires k <= 9 <= scale && v * Pow10(9 - k) == x
    ensures v * ns * Pow10(scale - k) * 1_000_000_000 == x * ns * Pow10(scale)
  {
    NinthPower();
    Pow10Adds(k, scale - k);
    Pow10Adds(9 - k, k);
    Associate(v, ns, Pow10(9 - k), Pow10(k), Pow10(scale - k));
  }

  lemma PointForm(w: string, d: string)
    requires AllDigits(w) && AllDigits(d) && w != ""
    ensures var t := w + "." + d; IsFloat(t) && Left(t) == w && Right(t) == d && forall c :: c in t ==> InNumber(c)
  {
    var t := w + "." + d;
    assert forall k :: 0 <= k < |w| ==> t[k] == w[k] && IsDigit(w[k]);
    assert t[|w|] == '.';
    assert Point(t) == |w|;
    assert t[..|w|] == w && t[|w| + 1..] == d;
  }

  lemma PlainForm(w: string)
    requires AllDigits(w) && w != ""
    ensures IsFloat(w) && Left(w) == w && Right(w) == ""
  {
    assert forall k :: 0 <= k < |w| ==> IsDigit(w[k]);
    assert Point(w) == |w|;
  }

  /** A token "whole[.frac]" is a number the parser takes whole. */
  lemma NumberForm(whole: nat, frac: nat)
    requires frac < 1_000_000_000
    ensures Number(whole, frac) != "" && IsDigit(Number(whole, frac)[0])
    ensures forall c :: c in Number(whole, frac) ==> InNumber(c)
    ensures IsFloat(Number(whole, frac))
    ensures Left(Number(whole, frac)) == Decimal(whole)
    ensures Right(Number(whole, frac)) == if frac == 0 then "" else Strip(Fill(Decimal(frac), 9))
  {
    var w := Decimal(whole);
    if frac == 0 {
      assert Number(whole, 0) == w;
      PlainForm(w);
    } else {
      var full := Fill(Decimal(frac), 9);
      assert Number(whole, frac) == w + "." + Strip(full);
      StripKeepsValue(w, full);
      assert AllDigits(Strip(full)) by {
        assert (w + Strip(full))[|w|..] == Strip(full);
      }
      PointForm(w, Strip(full));
    }
  }

  lemma Scaled(whole: nat, frac: nat, v: nat, k: nat)
    requires v * Pow10(k) == whole * Pow10(9) + frac
    ensures v * Pow10(k) == whole * 1_000_000_000 + frac
  {
    NinthPower();
  }

  lemma FractionDigits(w: string, frac: nat)
    requires AllDigits(w) && 0 < frac < 1_000_000_000
    ensures var d := Strip(Fill(Decimal(frac), 9));
      |d| <= 9 && AllDigits(w + d) && Val(w + d) * Pow10(9 - |d|) == Val(w) * 1_000_000_000 + frac
  {
    var full := NineDigits(frac);
    ValOfConcat(w, full);
    StripKeepsValue(w, full);
    Scaled(Val(w), frac, Val(w + Strip(full)), 9 - |Strip(full)|);
  }

  lemma NineDigits(frac: nat) returns (full: string)
    requires frac < 1_000_000_000
    ensures full == Fill(Decimal(frac), 9) && AllDigits(full) && |full| == 9 && Val(full) == frac
  {
    full := Fill(Decimal(frac), 9);
    NinthPower();
    DecimalWidth(frac, 9);
    ValOfDecimal(frac);
    FillKeepsValue(Decimal(frac), 9);
  }

  lemma TermIs(t: string, ns: nat, scale: nat, w: string, d: string)
    requires IsFloat(t) && Left(t) == w && Right(t) == d && |d| <= scale && AllDigits(w + d)
    ensures Term(t, ns, scale) == Val(w + d) * ns * Pow10(scale - |d|)
  {
  }

  lemma ValueFrom(t: string, ns: nat, scale: nat, w: string, d: string, x: nat, worth: nat)
    requires IsFloat(t) && Left(t) == w && Right(t) == d && |d| <= 9 <= scale && AllDigits(w + d)
    requires Val(w + d) * Pow10(9 - |d|) == x && x * ns == worth
    ensures AtScale(scale)(t, ns) * 1_000_000_000 == worth * Pow10(scale)
  {
    TermIs(t, ns, scale, w, d);
    Rescale(Val(w + d), ns, |d|, x, scale);
  }

  /** The digits of a printed number are exact to the ninth decimal: the zeros that were
      stripped carried nothing. */
  lemma NumberDigits(whole: nat, frac: nat, t: string, d: string)
    requires frac < 1_000_000_000 && t == Number(whole, frac) && d == Right(t)
    ensures IsFloat(t) && Left(t) == Decimal(whole) && |d| <= 9 && AllDigits(Decimal(whole) + d)
    ensures Val(Decimal(whole) + d) * Pow10(9 - |d|) == whole * 1_000_000_000 + frac
  {
    var w := Decimal(whole);
    NumberForm(whole, frac);
    ValOfDecimal(whole);
    if frac == 0 {
      assert w + d == w;
      NinthPower();
    } else {
      FractionDigits(w, frac);
    }
  }

  /** What a printed number is worth to the parser. */
  lemma NumberValue(whole: nat, frac: nat, ns: nat, scale: nat)
    requires frac < 1_000_000_000 && scale >= 9
    ensures AtScale(scale)(Number(whole, frac), ns) * 1_000_000_000 ==
      WorthOf(whole, frac, ns) * Pow10(scale)
  {
    var t := Number(whole, frac);
    NumberDigits(whole, frac, t, Right(t));
    ValueFrom(t, ns, scale, Decimal(whole), Right(t), whole * 1_000_000_000 + frac, WorthOf(whole, frac, ns));
  }

  lemma {:induction false} NumberEnds(t: string, rest: string)
    requires forall c :: c in t ==> InNumber(c)
    requires rest != "" && !InNumber(rest[0])
    ensures NumberLength(t + rest) == |t|
  {
    if t == "" {
      assert t + rest == rest;
    } else {
      assert (t + rest)[1..] == t[1..] + rest;
      NumberEnds(t[1..], rest);
    }
  }

  /** What may stand after a unit in a printed form: nothing, or the next number. */
  predicate Boundary(s: string) {
    s == "" || InNumber(s[0])
  }

  /** Each unit is found where it stands, although some are prefixes of others. */
  lemma ProbeFinds(alpha: char -> bool, i: nat, rest: string)
    requires Alphabet(alpha) && i < |UNITS| && Boundary(rest)
    ensures Probe(alpha, UNITS[i].name + rest, 0) == Some(UNITS[i])
  {
    var s := UNITS[i].name + rest;
    assert s[..|UNITS[i].name|] == UNITS[i].name && s[|UNITS[i].name|..] == rest;
    assert Matches(alpha, s, UNITS[i]);
    var j := i;
    while j > 0
      invariant j <= i && Probe(alpha, s, j) == Some(UNITS[i])
    {
      j := j - 1;
      OtherUnit(alpha, i, j, rest);
    }
  }

  lemma OtherUnit(alpha: char -> bool, i: nat, j: nat, rest: string)
    requires j < i < |UNITS| && Boundary(rest)
    ensures !Matches(alpha, UNITS[i].name + rest, UNITS[j])
  {
    var s := UNITS[i].name + rest;
    assert s[0] == UNITS[i].name[0];
    if i == 4 && j == 2 {
      assert UNITS[2].name[1] == 's';
      assert |s| > 1 ==> s[1] == rest[0];
    } else {
      assert UNITS[i].name[0] != UNITS[j].name[0];
    }
  }

  lemma NextOfTerm(alpha: char -> bool, t: string, i: nat, rest: string)
    requires Alphabet(alpha) && i < |UNITS| && Boundary(rest)
    requires t != "" && IsFloat(t) && forall c :: c in t ==> InNumber(c)
    ensures Next(alpha, t + (UNITS[i].name + rest)) == Some((t, UNITS[i]))
  {
    var tail := UNITS[i].name + rest;
    assert tail[0] == UNITS[i].name[0] && !InNumber(tail[0]);
    NumberEnds(t, tail);
    ProbeFinds(alpha, i, rest);
    assert (t + tail)[..|t|] == t && (t + tail)[|t|..] == tail;
  }

  lemma NextOfNumber(alpha: char -> bool, whole: nat, frac: nat, i: nat, rest: string)
    requires Alphabet(alpha) && i < |UNITS| && Boundary(rest) && frac < 1_000_000_000
    ensures Next(alpha, Number(whole, frac) + (UNITS[i].name + rest)) == Some((Number(whole, frac), UNITS[i]))
  {
    NumberForm(whole, frac);
    NextOfTerm(alpha, Number(whole, frac), i, rest);
  }

  /** The reader takes every printed term off the front. */
  lemma TermSplits(alpha: char -> bool, whole: nat, frac: nat, i: nat, rest: string)
    requires Alphabet(alpha) && i < |UNITS| && Boundary(rest) && frac < 1_000_000_000
    ensures Splits(LexerOf(alpha), Number(whole, frac) + (UNITS[i].name + rest), Number(whole, frac), UNITS[i], rest)
  {
    NextOfNumber(alpha, whole, frac, i, rest);
    Behind(Number(whole, frac), UNITS[i].name, rest);
  }

  lemma Behind(t: string, name: string, rest: string)
    ensures (t + (name + rest))[|t| + |name|..] == rest
  {
  }

  /** `total` takes a printed term off the front and adds its worth, weighed at what one
      nanosecond amounts to. */
  ghost predicate Adds(total: string -> Option<nat>, weigh: nat -> nat) {
    total("") == Some(0) &&
    forall piece: Piece, rest: string {:trigger total(Shown(piece, rest))} ::
      piece.Valid() && Boundary(rest) && total(rest).Some? ==>
      total(Shown(piece, rest)).Some? &&
      total(Shown(piece, rest)).value * 1_000_000_000 == weigh(piece.Worth()) + total(rest).value * 1_000_000_000
  }

  ghost predicate Additive(weigh: nat -> nat) {
    weigh(0) == 0 && forall a: nat, b: nat :: weigh(a + b) == weigh(a) + weigh(b)
  }

  /** `next` takes a printed term off the front, and `amount` values it at its worth. */
  ghost predicate Takes(next: Lexer, amount: Amount, p: nat) {
    forall piece: Piece, rest: string {:trigger Shown(piece, rest)} ::
      piece.Valid() && Boundary(rest) ==>
      Splits(next, Shown(piece, rest), Number(piece.whole, piece.frac), piece.unit, rest) &&
      amount(Number(piece.whole, piece.frac), piece.unit.ns) * 1_000_000_000 == piece.Worth() * p
  }

  lemma LexerTakes(alpha: char -> bool, piece: Piece, rest: string)
    requires Alphabet(alpha) && piece.Valid() && Boundary(rest)
    ensures Splits(LexerOf(alpha), Shown(piece, rest), Number(piece.whole, piece.frac), piece.unit, rest)
  {
    var i :| 0 <= i < |UNITS| && UNITS[i] == piece.unit;
    TermSplits(alpha, piece.whole, piece.frac, i, rest);
  }

  lemma ParserTakes(alpha: char -> bool, scale: nat)
    requires Alphabet(alpha) && scale >= 9
    ensures Takes(LexerOf(alpha), AtScale(scale), Pow10(scale))
  {
    forall piece: Piece, rest: string | piece.Valid() && Boundary(rest)
      ensures Splits(LexerOf(alpha), Shown(piece, rest), Number(piece.whole, piece.frac), piece.unit, rest)
      ensures AtScale(scale)(Number(piece.whole, piece.frac), piece.unit.ns) * 1_000_000_000 ==
        piece.Worth() * Pow10(scale)
    {
      LexerTakes(alpha, piece, rest);
      NumberValue(piece.whole, piece.frac, piece.unit.ns, scale);
    }
  }

  lemma TotalAdds(next: Lexer, amount: Amount, p: nat)
    requires Takes(next, amount, p)
    ensures Adds(TotalWith(next, amount), WeighedAt(p))
  {
    forall piece: Piece, rest: string | piece.Valid() && Boundary(rest)
      ensures Total(next, amount, rest).Some? ==>
        Total(next, amount, Shown(piece, rest)).Some? &&
        Total(next, amount, Shown(piece, rest)).value * 1_000_000_000 ==
          piece.Worth() * p + Total(next, amount, rest).value * 1_000_000_000
    {
      Advance(next, amount, Shown(piece, rest), Number(piece.whole, piece.frac), piece.unit, rest, 0);
    }
  }

  /** The printed form of a list of terms adds up to exactly their worth. */
  lemma {:induction false} TotalOfText(total: string -> Option<nat>, weigh: nat -> nat, pieces: seq<Piece>)
    requires Adds(total, weigh) && Additive(weigh) && forall piece :: piece in pieces ==> piece.Valid()
    ensures total(Text(pieces)).Some? && total(Text(pieces)).value * 1_000_000_000 == weigh(Worth(pieces))
  {
    if pieces != [] {
      var rest := Text(pieces[1..]);
      TotalOfText(total, weigh, pieces[1..]);
      assert Boundary(rest) by {
        assert pieces[1..] != [] || rest == "";
      }
      assert total(Shown(pieces[0], rest)).Some?;
    }
  }

  lemma WorthOfOne(a: Piece)
    ensures Worth([a]) == a.Worth()
  {
    var none: seq<Piece> := [];
    assert [a][1..] == none;
  }

  lemma WorthOfTwo(a: Piece, b: Piece)
    ensures Worth([a, b]) == a.Worth() + b.Worth()
  {
    assert [a, b][1..] == [b];
    WorthOfOne(b);
  }

  lemma WorthOfThree(a: Piece, b: Piece, c: Piece)
    ensures Worth([a, b, c]) == a.Worth() + b.Worth() + c.Worth()
  {
    assert [a, b, c][1..] == [b, c];
    WorthOfTwo(b, c);
  }

  /** Hours, minutes, seconds and the fraction make up the whole duration. */
  lemma PiecesAreExact(ns: nat)
    ensures Worth(Pieces(ns)) == ns * 1_000_000_000
  {
    if ns == 0 {
      WorthOfOne(Piece(0, 0, SECOND));
    } else if ns < 1_000_000_000 {
      var whole, frac := ns / 1_000_000, ns % 1_000_000 * 1000;
      WorthOfOne(Piece(whole, frac, MS));
      assert WorthOf(whole, frac, 1_000_000) == (whole * 1_000_000_000 + frac) * 1_000_000;
    } else {
      var hours, rem := ns / 3_600_000_000_000, ns % 3_600_000_000_000;
      var minutes, rest := rem / 60_000_000_000, rem % 60_000_000_000;
      var seconds, frac := rest / 1_000_000_000, rest % 1_000_000_000;
      var h, m, s := Piece(hours, 0, HOUR), Piece(minutes, 0, MINUTE), Piece(seconds, frac, SECOND);
      assert h.Worth() == hours * 3_600_000_000_000 * 1_000_000_000;
      assert m.Worth() == minutes * 60_000_000_000 * 1_000_000_000;
      assert s.Worth() == rest * 1_000_000_000;
      WorthOfOne(s);
      WorthOfTwo(m, s);
      WorthOfThree(h, m, s);
    }
  }

  function TotalWith(next: Lexer, amount: Amount): string -> Option<nat> {
    s => Total(next, amount, s)
  }

  function WeighedAt(p: nat): nat -> nat {
    n => n * p
  }

  lemma Distributes(p: nat)
    ensures Additive(WeighedAt(p))
  {
    forall a: nat, b: nat
      ensures (a + b) * p == a * p + b * p
    {
    }
  }

  lemma Billions(total: nat, ns: nat, p: nat)
    requires total * 1_000_000_000 == ns * 1_000_000_000 * p
    ensures total == ns * p
  {
    assert ns * 1_000_000_000 * p == ns * p * 1_000_000_000;
  }

  lemma TotalOfPieces(next: Lexer, amount: Amount, p: nat, pieces: seq<Piece>)
    requires Takes(next, amount, p) && forall piece :: piece in pieces ==> piece.Valid()
    ensures Total(next, amount, Text(pieces)).Some?
    ensures Total(next, amount, Text(pieces)).value * 1_000_000_000 == Worth(pieces) * p
  {
    TotalAdds(next, amount, p);
    Distributes(p);
    TotalOfText(TotalWith(next, amount), WeighedAt(p), pieces);
  }

  /** The printed form of every duration adds up to exactly that duration. */
  lemma TotalOfHuman(next: Lexer, amount: Amount, p: nat, ns: nat)
    requires Takes(next, amount, p)
    ensures Total(next, amount, Human(ns)) == Some(ns * p)
  {
    TotalOfPieces(next, amount, p, Pieces(ns));
    PiecesAreExact(ns);
    Billions(Total(next, amount, Human(ns)).value, ns, p);
  }

  /** Parsing what was printed gives back the duration, exactly up to the parser's limit. */
  lemma ParseUndoesHuman(alpha: char -> bool, ns: nat)
    requires Alphabet(alpha)
    ensures Parse(alpha, Human(ns)) == if ns <= LIMIT then Some(ns) else None
  {
    var scale := ScaleOf(Human(ns));
    ParserTakes(alpha, scale);
    TotalOfHuman(LexerOf(alpha), AtScale(scale), Pow10(scale), ns);
    CutAt(ns, Pow10(scale));
  }

  lemma CutAt(ns: nat, p: nat)
    requires p > 0
    ensures Cut(Some(ns * p), p) == if ns <= LIMIT then Some(ns) else None
  {
    Cancel(ns, p);
    Monotone(if ns <= LIMIT then ns else LIMIT + 1, if ns <= LIMIT then LIMIT else ns, p);
  }

  predicate OnlyS(c: char) {
    c == 's'
  }

  /** Two durations print alike exactly when they differ at most in sign. */
  lemma HumanIsInjective(m: int, n: int)
    ensures Human(m) == Human(n) <==> Abs(m) == Abs(n)
  {
    assert Human(m) == Human(Abs(m)) && Human(n) == Human(Abs(n));
    ParserTakes(OnlyS, 9);
    TotalOfHuman(LexerOf(OnlyS), AtScale(9), Pow10(9), Abs(m));
    TotalOfHuman(LexerOf(OnlyS), AtScale(9), Pow10(9), Abs(n));
    Cancel(Abs(m), Pow10(9));
    Cancel(Abs(n), Pow10(9));
  }

  lemma PartsOf(h: nat, m: nat, s: nat, f: nat, ns: nat)
    requires m < 60 && s < 60 && f < 1_000_000_000
    requires ns == h * 3_600_000_000_000 + m * 60_000_000_000 + s * 1_000_000_000 + f
    ensures ns / 3_600_000_000_000 == h
    ensures ns % 3_600_000_000_000 == m * 60_000_000_000 + s * 1_000_000_000 + f
    ensures ns % 3_600_000_000_000 / 60_000_000_000 == m
    ensures ns % 3_600_000_000_000 % 60_000_000_000 == s * 1_000_000_000 + f
    ensures (s * 1_000_000_000 + f) / 1_000_000_000 == s && (s * 1_000_000_000 + f) % 1_000_000_000 == f
  {
  }

  lemma TextOfOne(a: Piece)
    ensures Text([a]) == Number(a.whole, a.frac) + a.unit.name
  {
    var none: seq<Piece> := [];
    assert [a][1..] == none;
    assert a.unit.name + "" == a.unit.name;
  }

  lemma TextOfMore(a: Piece, rest: seq<Piece>)
    ensures Text([a] + rest) == Number(a.whole, a.frac) + (a.unit.name + Text(rest))
  {
    assert ([a] + rest)[1..] == rest;
  }

  lemma WholeNumber(n: nat)
    ensures Number(n, 0) == Decimal(n)
  {
  }

  /** What a duration of so many hours, minutes, seconds and nanoseconds prints as: the hours
      when there are any, the minutes when there are hours or any, then the seconds with
      their fraction. */
  function Clock(h: nat, m: nat, s: nat, f: nat): string {
    var seconds := Number(s, f) + "s";
    if h > 0 then Decimal(h) + ("h" + (Decimal(m) + ("m" + seconds)))
    else if m > 0 then Decimal(m) + ("m" + seconds)
    else seconds
  }

  lemma TextOfClock(h: nat, m: nat, seconds: Piece)
    ensures Text([Piece(m, 0, MINUTE), seconds]) == Decimal(m) + ("m" + Text([seconds]))
    ensures Text([Piece(h, 0, HOUR), Piece(m, 0, MINUTE), seconds]) ==
      Decimal(h) + ("h" + (Decimal(m) + ("m" + Text([seconds]))))
  {
    var minutes, hours := Piece(m, 0, MINUTE), Piece(h, 0, HOUR);
    assert [minutes, seconds] == [minutes] + [seconds];
    assert [hours, minutes, seconds] == [hours] + [minutes, seconds];
    TextOfMore(minutes, [seconds]);
    TextOfMore(hours, [minutes, seconds]);
    WholeNumber(m);
    WholeNumber(h);
  }

  lemma PiecesOfClock(h: nat, m: nat, s: nat, f: nat, ns: nat)
    requires m < 60 && s < 60 && f < 1_000_000_000 && (h > 0 || m > 0 || s > 0)
    requires ns == h * 3_600_000_000_000 + m * 60_000_000_000 + s * 1_000_000_000 + f
    ensures var seconds := Piece(s, f, SECOND);
      Pieces(ns) == if h > 0 then [Piece(h, 0, HOUR), Piece(m, 0, MINUTE), seconds]
                    else if m > 0 then [Piece(m, 0, MINUTE), seconds] else [seconds]
  {
    PartsOf(h, m, s, f, ns);
  }

  /** From one second on. */
  lemma HumanIsClock(h: nat, m: nat, s: nat, f: nat)
    requires m < 60 && s < 60 && f < 1_000_000_000 && (h > 0 || m > 0 || s > 0)
    ensures Human(h * 3_600_000_000_000 + m * 60_000_000_000 + s * 1_000_000_000 + f) == Clock(h, m, s, f)
  {
    var ns := h * 3_600_000_000_000 + m * 60_000_000_000 + s * 1_000_000_000 + f;
    var seconds := Piece(s, f, SECOND);
    PiecesOfClock(h, m, s, f, ns);
    TextOfOne(seconds);
    TextOfClock(h, m, seconds);
    assert Human(ns) == Text(Pieces(ns));
  }

  lemma PiecesOfMillis(ms: nat, rest: nat, ns: nat)
    requires ms < 1000 && rest < 1_000_000 && ns == ms * 1_000_000 + rest > 0
    ensures Pieces(ns) == [Piece(ms, rest * 1000, MS)]
  {
    assert ns / 1_000_000 == ms && ns % 1_000_000 == rest;
  }

  /** Below one second: milliseconds, with the rest as their fraction. */
  lemma HumanIsMillis(ms: nat, rest: nat)
    requires ms < 1000 && rest < 1_000_000 && ms + rest > 0
    ensures Human(ms * 1_000_000 + rest) == Number(ms, rest * 1000) + "ms"
  {
    var ns := ms * 1_000_000 + rest;
    PiecesOfMillis(ms, rest, ns);
    TextOfOne(Piece(ms, rest * 1000, MS));
    assert Human(ns) == Text(Pieces(ns));
  }

  lemma HumanOfNothing()
    ensures Human(0) == "0s"
  {
    TextOfOne(Piece(0, 0, SECOND));
    WholeNumber(0);
  }

  /** A fraction is cut to its last digit that is not zero, and stands for its billionths. */
  lemma FractionForm(f: nat)
    requires 0 < f < 1_000_000_000
    ensures var r := Fraction(f); var d := r[1..];
      && r[0] == '.' && 0 < |d| <= 9 && AllDigits(d) && d[|d| - 1] != '0'
      && Val(d) * Pow10(9 - |d|) == f
  {
    var d := Strip(Fill(Decimal(f), 9));
    FractionDigits("", f);
    assert "" + d == d && Fraction(f)[1..] == d && Val("") == 0;
  }

  lemma SecondsForm()
    ensures Human(5_000_000_000) == "5s"
  {
  }

  lemma MillisForm()
    ensures Human(900_000_000) == "900ms"
  {
    assert Decimal(90) == "90";
  }

  lemma MinutesForm()
    ensures Human(60_000_000_000) == "1m0s" && Human(3_600_000_000_000) == "1h0m0s"
  {
  }

  /** Forms that the documentation shows. */
  lemma DocumentedForms()
    ensures Human(900_000_000) == "900ms" && Human(5_000_000_000) == "5s"
    ensures Human(60_000_000_000) == "1m0s" && Human(3_600_000_000_000) == "1h0m0s"
  {
    MillisForm();
    SecondsForm();
    MinutesForm();
  }

  predicate Never(c: char) {
    false
  }

  /** `strict` refuses a term that `bare` takes only where `bare` cannot go on behind it. */
  ghost predicate Tightens(strict: Lexer, bare: Lexer) {
    && (forall s: string {:trigger bare(s)} :: bare(s).None? ==> strict(s).None?)
    && (forall s: string, t: string, unit: Unit, rest: string {:trigger Splits(bare, s, t, unit, rest)} ::
         Splits(bare, s, t, unit, rest) ==>
         strict(s) == bare(s) || (strict(s).None? && rest != "" && bare(rest).None?))
  }

  lemma SameStep(strict: Lexer, bare: Lexer, amount: Amount, s: string, t: string, unit: Unit, rest: string)
    requires Splits(bare, s, t, unit, rest)
    requires strict(s) == bare(s) || (strict(s).None? && rest != "" && bare(rest).None?)
    requires Total(strict, amount, rest) == Total(bare, amount, rest)
    ensures Total(strict, amount, s) == Total(bare, amount, s)
  {
    FirstTerm(bare, amount, s, t, unit, rest);
    if strict(s).Some? {
      FirstTerm(strict, amount, s, t, unit, rest);
    } else {
      Stop(bare, amount, rest);
    }
  }

  lemma FirstTerm(next: Lexer, amount: Amount, s: string, t: string, unit: Unit, rest: string)
    requires Splits(next, s, t, unit, rest)
    ensures Total(next, amount, s) == Ahead(amount(t, unit.ns), Total(next, amount, rest))
  {
  }

  lemma {:induction false} SameTotals(strict: Lexer, bare: Lexer, amount: Amount, s: string)
    requires Tightens(strict, bare)
    ensures Total(strict, amount, s) == Total(bare, amount, s)
    decreases |s|
  {
    if s != "" && bare(s).Some? {
      var (t, unit) := bare(s).value;
      var rest := s[|t| + |unit.name|..];
      assert Splits(bare, s, t, unit, rest);
      SameTotals(strict, bare, amount, rest);
      SameStep(strict, bare, amount, s, t, unit, rest);
    }
  }

  /** The look-ahead for a letter decides nothing: where it refuses a unit, the text could
      not have gone on with a number either. */
  lemma LookaheadIsRedundant(alpha: char -> bool, amount: Amount, s: string)
    requires Alphabet(alpha)
    ensures Total(LexerOf(alpha), amount, s) == Total(LexerOf(Never), amount, s)
  {
    LookaheadTightens(alpha);
    SameTotals(LexerOf(alpha), LexerOf(Never), amount, s);
  }

  lemma LookaheadTightens(alpha: char -> bool)
    requires Alphabet(alpha)
    ensures Tightens(LexerOf(alpha), LexerOf(Never))
  {
    forall s: string
      ensures LexerOf(Never)(s).None? ==> LexerOf(alpha)(s).None?
    {
      NextWithout(alpha, s);
    }
    forall s: string, t: string, unit: Unit, rest: string | Splits(LexerOf(Never), s, t, unit, rest)
      ensures LexerOf(alpha)(s) == LexerOf(Never)(s) ||
        (LexerOf(alpha)(s).None? && rest != "" && LexerOf(Never)(rest).None?)
    {
      NextWithout(alpha, s);
    }
  }

  lemma NextWithout(alpha: char -> bool, s: string)
    requires Alphabet(alpha)
    ensures var bare := Next(Never, s);
      Next(alpha, s) == bare ||
      (Next(alpha, s).None? && bare.Some? &&
       var rest := s[|bare.value.0| + |bare.value.1.name|..]; rest != "" && Next(Never, rest).None?)
  {
    var n := NumberLength(s);
    ProbeWithout(alpha, s[n..], 0);
    var bare := Probe(Never, s[n..], 0);
    if bare.Some? {
      assert s[n..][|bare.value.name|..] == s[n + |bare.value.name|..];
    }
  }

  /** Behind "ms" a letter also stands behind the "m", and no other two units start alike. */
  lemma LaterUnit(alpha: char -> bool, s: string, i: nat, j: nat)
    requires Alphabet(alpha) && i < j < |UNITS| && UNITS[i].name <= s
    ensures !Matches(alpha, s, UNITS[j])
  {
    assert s[0] == UNITS[i].name[0];
    if i == 2 && j == 4 {
      assert s[1] == UNITS[2].name[1] == 's';
    } else {
      assert UNITS[i].name[0] != UNITS[j].name[0];
    }
  }

  lemma {:induction false} ProbeNone(alpha: char -> bool, s: string, i: nat)
    requires i <= |UNITS| && forall j :: i <= j < |UNITS| ==> !Matches(alpha, s, UNITS[j])
    ensures Probe(alpha, s, i).None?
    decreases |UNITS| - i
  {
    if i < |UNITS| {
      ProbeNone(alpha, s, i + 1);
    }
  }

  /** The probes with and without the look-ahead agree, or the text breaks off after the unit. */
  lemma {:induction false} ProbeWithout(alpha: char -> bool, s: string, i: nat)
    requires Alphabet(alpha) && i <= |UNITS|
    ensures var bare := Probe(Never, s, i);
      Probe(alpha, s, i) == bare ||
      (Probe(alpha, s, i).None? && bare.Some? &&
       |s| > |bare.value.name| && !InNumber(s[|bare.value.name|]))
    decreases |UNITS| - i
  {
    if i == |UNITS| {
    } else if UNITS[i].name <= s {
      assert Probe(Never, s, i) == Some(UNITS[i]);
      if !Matches(alpha, s, UNITS[i]) {
        forall j | i < j < |UNITS|
          ensures !Matches(alpha, s, UNITS[j])
        {
          LaterUnit(alpha, s, i, j);
        }
        ProbeNone(alpha, s, i);
      }
    } else {
      ProbeWithout(alpha, s, i + 1);
    }
  }

  // ------------------------------------------------------------ what is accepted

  datatype Measure = Nanos | Micros | Millis | Seconds | Minutes | Hours

  function NameOf(m: Measure): string {
    match m
    case Nanos => "ns" case Micros => "us" case Millis => "ms"
    case Seconds => "s" case Minutes => "m" case Hours => "h"
  }

  function NanosIn(m: Measure): nat {
    match m
    case Nanos => 1
    case Micros => 1_000
    case Millis => 1_000_000
    case Seconds => 1_000_000_000
    case Minutes => 60 * 1_000_000_000
    case Hours => 60 * 60 * 1_000_000_000
  }

  /** A number as it may be written, and its unit: digits, or digits around a point with one
      side possibly empty. */
  datatype Literal = Literal(left: string, point: bool, right: string, measure: Measure) {
    predicate Valid() {
      AllDigits(left) && AllDigits(right) && |left| + |right| > 0 && (right != "" ==> point)
    }

    function Token(): string {
      if point then left + "." + right else left
    }

    function Size(): Unit {
      Unit(NameOf(measure), NanosIn(measure))
    }

    /** In nanoseconds. */
    function Value(): real
      requires Valid()
    {
      AllDigitsTogether(left, right);
      Over(Val(left + right) * NanosIn(measure), Pow10(|right|))
    }
  }

  lemma AllDigitsTogether(a: string, b: string)
    requires AllDigits(a) && AllDigits(b)
    ensures AllDigits(a + b)
  {
  }

  predicate AllValid(literals: seq<Literal>) {
    forall i :: 0 <= i < |literals| ==> literals[i].Valid()
  }

  function Spelled(l: Literal, rest: string): string {
    l.Token() + (NameOf(l.measure) + rest)
  }

  function Spell(literals: seq<Literal>): string {
    if literals == [] then "" else Spelled(literals[0], Spell(literals[1..]))
  }

  function Sum(literals: seq<Literal>): real
    requires AllValid(literals)
  {
    if literals == [] then 0.0 else literals[0].Value() + Sum(literals[1..])
  }

  /** The grammar's units are those of the table. */
  lemma IndexOf(m: Measure) returns (i: nat)
    ensures i < |UNITS| && UNITS[i] == Unit(NameOf(m), NanosIn(m))
  {
    i := match m case Nanos => 0 case Micros => 1 case Millis => 2 case Seconds => 3 case Minutes => 4 case Hours => 5;
  }

  lemma MeasureOf(unit: Unit) returns (m: Measure)
    requires unit in UNITS
    ensures unit == Unit(NameOf(m), NanosIn(m))
  {
    var i :| 0 <= i < |UNITS| && UNITS[i] == unit;
    m := if i == 0 then Nanos else if i == 1 then Micros else if i == 2 then Millis
    else if i == 3 then Seconds else if i == 4 then Minutes else Hours;
  }

  /** Where the point stands. */
  lemma PointAt(w: string, d: string)
    requires AllDigits(w)
    ensures Point(w + "." + d) == |w| && Point(w) == |w|
  {
    var t := w + "." + d;
    assert forall k :: 0 <= k < |w| ==> t[k] == w[k] && IsDigit(w[k]);
    assert t[|w|] == '.';
  }

  lemma TokenForm(l: Literal)
    requires l.Valid()
    ensures var t := l.Token();
      t != "" && IsFloat(t) && Left(t) == l.left && Right(t) == l.right && forall c :: c in t ==> InNumber(c)
  {
    PointAt(l.left, l.right);
    var t := l.Token();
    if l.point {
      assert t[..|l.left|] == l.left && t[|l.left| + 1..] == l.right;
    } else {
      assert l.right == "";
    }
  }

  lemma SpellStarts(literals: seq<Literal>)
    requires AllValid(literals)
    ensures Boundary(Spell(literals)) && (literals != [] ==> Spell(literals) != "")
  {
    if literals != [] {
      TokenForm(literals[0]);
    }
  }

  lemma LexesLiteral(alpha: char -> bool, l: Literal, rest: string)
    requires Alphabet(alpha) && l.Valid() && Boundary(rest)
    ensures Splits(LexerOf(alpha), Spelled(l, rest), l.Token(), l.Size(), rest)
  {
    TokenForm(l);
    var i := IndexOf(l.measure);
    NextOfTerm(alpha, l.Token(), i, rest);
    Behind(l.Token(), NameOf(l.measure), rest);
  }

  /** `v` of which `d` make a whole. */
  function Over(v: nat, d: nat): real
    requires d > 0
  {
    v as real / d as real
  }

  lemma OverCommon(term: nat, v: nat, d: nat, e: nat, p: nat, x: real)
    requires d > 0 && term == v * e && p == d * e && x == Over(v, d)
    ensures term as real == Scaling(p)(x)
  {
    assert x * d as real == v as real;
    assert (d * e) as real == d as real * e as real;
    assert (v * e) as real == v as real * e as real;
    Commute(x, d as real, e as real);
  }

  lemma Commute(a: real, b: real, c: real)
    ensures a * (b * c) == a * b * c
  {
  }

  lemma TermValue(t: string, ns: nat, scale: nat, w: string, d: string, v: nat, x: real, weigh: real -> real)
    requires IsFloat(t) && Left(t) == w && Right(t) == d && |d| <= scale && AllDigits(w + d)
    requires v == Val(w + d) * ns && x == Over(v, Pow10(|d|)) && weigh == Scaling(Pow10(scale))
    ensures AtScale(scale)(t, ns) as real == weigh(x)
  {
    TermIs(t, ns, scale, w, d);
    Pow10Adds(|d|, scale - |d|);
    OverCommon(AtScale(scale)(t, ns), v, Pow10(|d|), Pow10(scale - |d|), Pow10(scale), x);
  }

  /** What a literal is worth to the parser. */
  lemma LiteralTerm(l: Literal, scale: nat, weigh: real -> real)
    requires l.Valid() && |l.right| <= scale && weigh == Scaling(Pow10(scale))
    ensures AtScale(scale)(l.Token(), NanosIn(l.measure)) as real == weigh(l.Value())
  {
    TokenForm(l);
    AllDigitsTogether(l.left, l.right);
    TermValue(l.Token(), NanosIn(l.measure), scale, l.left, l.right,
              Val(l.left + l.right) * NanosIn(l.measure), l.Value(), weigh);
  }

  function Scaling(p: nat): real -> real {
    x => x * p as real
  }

  function Plus(a: real, b: real): real {
    a + b
  }

  ghost predicate Linear(weigh: real -> real) {
    weigh(0.0) == 0.0 && forall a: real, b: real :: weigh(Plus(a, b)) == weigh(a) + weigh(b)
  }

  lemma ScaledSum(a: real, b: real, p: real)
    ensures Plus(a, b) * p == a * p + b * p
  {
  }

  lemma ScalingIsLinear(p: nat)
    ensures Linear(Scaling(p))
  {
    forall a: real, b: real
      ensures Scaling(p)(Plus(a, b)) == Scaling(p)(a) + Scaling(p)(b)
    {
      ScaledSum(a, b, p as real);
    }
  }

  /** `next` takes a literal with up to `scale` decimals off the front, and `amount` values it
      at what it says, weighed. */
  ghost predicate Reads(next: Lexer, amount: Amount, scale: nat, weigh: real -> real) {
    forall l: Literal, rest: string {:trigger Spelled(l, rest)} ::
      l.Valid() && |l.right| <= scale && Boundary(rest) ==>
      && Splits(next, Spelled(l, rest), l.Token(), l.Size(), rest)
      && amount(l.Token(), NanosIn(l.measure)) as real == weigh(l.Value())
  }

  lemma ParserReads(alpha: char -> bool, scale: nat)
    requires Alphabet(alpha)
    ensures Reads(LexerOf(alpha), AtScale(scale), scale, Scaling(Pow10(scale)))
  {
    forall l: Literal, rest: string | l.Valid() && |l.right| <= scale && Boundary(rest)
      ensures Splits(LexerOf(alpha), Spelled(l, rest), l.Token(), l.Size(), rest)
      ensures AtScale(scale)(l.Token(), NanosIn(l.measure)) as real == Scaling(Pow10(scale))(l.Value())
    {
      LexesLiteral(alpha, l, rest);
      LiteralTerm(l, scale, Scaling(Pow10(scale)));
    }
  }

  lemma OneLiteral(next: Lexer, amount: Amount, scale: nat, weigh: real -> real, l: Literal, rest: string)
    requires Reads(next, amount, scale, weigh) && l.Valid() && |l.right| <= scale && Boundary(rest)
    requires Total(next, amount, rest).Some?
    ensures var total := Total(next, amount, Spelled(l, rest));
      total.Some? && total.value as real == weigh(l.Value()) + Total(next, amount, rest).value as real
  {
    FirstTerm(next, amount, Spelled(l, rest), l.Token(), l.Size(), rest);
  }

  lemma {:induction false} TotalOfLiterals(next: Lexer, amount: Amount, scale: nat, weigh: real -> real,
                                           literals: seq<Literal>)
    requires Reads(next, amount, scale, weigh) && Linear(weigh) && AllValid(literals)
    requires forall i :: 0 <= i < |literals| ==> |literals[i].right| <= scale
    ensures var total := Total(next, amount, Spell(literals));
      total.Some? && total.value as real == weigh(Sum(literals))
  {
    if literals != [] {
      var l, rest := literals[0], Spell(literals[1..]);
      TotalOfLiterals(next, amount, scale, weigh, literals[1..]);
      SpellStarts(literals[1..]);
      OneLiteral(next, amount, scale, weigh, l, rest);
      assert Sum(literals) == Plus(l.Value(), Sum(literals[1..]));
    }
  }

  /** Whatever `next` takes is a literal. */
  ghost predicate TakesLiterals(next: Lexer) {
    forall s: string {:trigger next(s)} :: next(s).Some? ==>
      exists l: Literal, rest: string ::
        l.Valid() && s == Spelled(l, rest) && Splits(next, s, l.Token(), l.Size(), rest)
  }

  lemma FrontAndBack(s: string, n: nat, name: string, rest: string)
    requires n <= |s| && name <= s[n..] && rest == s[n + |name|..]
    ensures s == s[..n] + (name + rest)
  {
    assert s[n..][|name|..] == rest;
    assert s[n..] == name + rest;
  }

  lemma AroundPoint(t: string, p: nat)
    requires p < |t| && t[p] == '.'
    ensures t == t[..p] + "." + t[p + 1..]
  {
    assert t[p..] == [t[p]] + t[p + 1..];
  }

  lemma LiteralOf(t: string, m: Measure)
    requires IsFloat(t)
    ensures var l := Literal(Left(t), Point(t) < |t|, Right(t), m); l.Valid() && l.Token() == t
  {
    var p := Point(t);
    if p < |t| {
      AroundPoint(t, p);
      assert Left(t) == t[..p] && Right(t) == t[p + 1..];
    } else {
      assert Left(t) == t && Right(t) == "";
    }
  }

  lemma TakenLiteral(alpha: char -> bool, s: string) returns (l: Literal, rest: string)
    requires Next(alpha, s).Some?
    ensures l.Valid() && s == Spelled(l, rest) && Splits(LexerOf(alpha), s, l.Token(), l.Size(), rest)
  {
    var (t, unit) := Next(alpha, s).value;
    var m := MeasureOf(unit);
    l, rest := Literal(Left(t), Point(t) < |t|, Right(t), m), s[|t| + |unit.name|..];
    LiteralOf(t, m);
    FrontAndBack(s, NumberLength(s), unit.name, rest);
  }

  lemma ParserTakesLiterals(alpha: char -> bool)
    ensures TakesLiterals(LexerOf(alpha))
  {
    forall s: string | LexerOf(alpha)(s).Some?
      ensures exists l: Literal, rest: string ::
        l.Valid() && s == Spelled(l, rest) && Splits(LexerOf(alpha), s, l.Token(), l.Size(), rest)
    {
      var l, rest := TakenLiteral(alpha, s);
    }
  }

  lemma {:induction false} LiteralsOf(next: Lexer, amount: Amount, s: string) returns (literals: seq<Literal>)
    requires TakesLiterals(next) && Total(next, amount, s).Some?
    ensures AllValid(literals) && Spell(literals) == s
    decreases |s|
  {
    literals := [];
    if s != "" {
      var l: Literal, rest: string :|
        l.Valid() && s == Spelled(l, rest) && Splits(next, s, l.Token(), l.Size(), rest);
      FirstTerm(next, amount, s, l.Token(), l.Size(), rest);
      var more := LiteralsOf(next, amount, rest);
      literals := [l] + more;
      assert literals[1..] == more;
    }
  }

  lemma {:induction false} DecimalsFit(literals: seq<Literal>, i: nat)
    requires AllValid(literals) && i < |literals|
    ensures |literals[i].right| <= |Spell(literals)|
  {
    if i > 0 {
      DecimalsFit(literals[1..], i - 1);
    }
  }

  lemma CutReal(total: nat, p: nat, sum: real)
    requires p > 0 && total as real == Scaling(p)(sum)
    ensures Cut(Some(total), p) == if sum <= 9_200_000_000_000_000_000.0 then Some(sum.Floor) else None
  {
    var q := Quotient(total, p);
    Dividing(q, p, total, sum);
    Dividing(q + 1, p, total, sum);
    Dividing(LIMIT, p, total, sum);
    assert (q + 1) * p == q * p + p;
  }

  /** Comparing scaled numbers compares the numbers. */
  lemma Dividing(q: nat, p: nat, total: nat, sum: real)
    requires p > 0 && total as real == sum * p as real
    ensures q * p <= total <==> q as real <= sum
    ensures q * p < total <==> q as real < sum
  {
    assert (q * p) as real == q as real * p as real;
    Ordered(q as real, sum, p as real);
  }

  lemma Ordered(a: real, b: real, p: real)
    requires p > 0.0
    ensures a * p <= b * p <==> a <= b
    ensures a * p < b * p <==> a < b
  {
    if a < b {
      assert (b - a) * p > 0.0;
    } else {
      assert (a - b) * p >= 0.0;
    }
  }

  lemma ParseOfLiterals(alpha: char -> bool, literals: seq<Literal>)
    requires Alphabet(alpha) && literals != [] && AllValid(literals)
    ensures Parse(alpha, Spell(literals)) ==
      if Sum(literals) <= 9_200_000_000_000_000_000.0 then Some(Sum(literals).Floor) else None
  {
    var scale := ScaleOf(Spell(literals));
    SpellStarts(literals);
    ParserTotal(alpha, literals, scale);
    CutReal(Total(LexerOf(alpha), AtScale(scale), Spell(literals)).value, Pow10(scale), Sum(literals));
  }

  lemma ParserTotal(alpha: char -> bool, literals: seq<Literal>, scale: nat)
    requires Alphabet(alpha) && AllValid(literals) && scale >= |Spell(literals)|
    ensures var total := Total(LexerOf(alpha), AtScale(scale), Spell(literals));
      total.Some? && total.value as real == Scaling(Pow10(scale))(Sum(literals))
  {
    ParserReads(alpha, scale);
    ScalingIsLinear(Pow10(scale));
    forall i | 0 <= i < |literals|
      ensures |literals[i].right| <= scale
    {
      DecimalsFit(literals, i);
    }
    TotalOfLiterals(LexerOf(alpha), AtScale(scale), scale, Scaling(Pow10(scale)), literals);
  }

  /** The literals spell out the text, and their sum, which is within the limit, is `n` with
      what is below a nanosecond cut off. */
  ghost predicate Says(s: string, literals: seq<Literal>, n: nat) {
    && literals != [] && AllValid(literals) && Spell(literals) == s
    && Sum(literals) <= 9_200_000_000_000_000_000.0 && n == Sum(literals).Floor
  }

  /** The grammar: a text is accepted, as `n` nanoseconds, exactly when it is a sequence of
      numbers with units that says so. */
  lemma ParsesExactly(alpha: char -> bool, s: string, n: nat)
    requires Alphabet(alpha)
    ensures Parse(alpha, s) == Some(n) <==> exists literals :: Says(s, literals, n)
  {
    if Parse(alpha, s) == Some(n) {
      ParserTakesLiterals(alpha);
      var literals := LiteralsOf(LexerOf(alpha), AtScale(ScaleOf(s)), s);
      ParseOfLiterals(alpha, literals);
      assert Says(s, literals, n);
    }
    forall literals | Says(s, literals, n)
      ensures Parse(alpha, s) == Some(n)
    {
      ParseOfLiterals(alpha, literals);
    }
  }

  /** A whole number of any unit. */
  lemma WholeUnits(alpha: char -> bool, n: nat, m: Measure)
    requires Alphabet(alpha)
    ensures Parse(alpha, Decimal(n) + NameOf(m)) ==
      if n * NanosIn(m) <= 9_200_000_000_000_000_000 then Some(n * NanosIn(m)) else None
  {
    var l := Literal(Decimal(n), false, "", m);
    ValOfDecimal(n);
    assert Decimal(n) + "" == Decimal(n) && NameOf(m) + "" == NameOf(m);
    assert Pow10(0) == 1;
    var none: seq<Literal> := [];
    assert [l][1..] == none && Sum(none) == 0.0 && Spell(none) == "";
    assert l.Value() == (n * NanosIn(m)) as real;
    assert Spell([l]) == Decimal(n) + NameOf(m);
    ParseOfLiterals(alpha, [l]);
  }
}
