/** The command line (loop/main.py:99-260): the flag table, the values of flags, the
    four-spelling parser, and the profile's effect on the shape (loop/main.py:300-307). */
module Flags {
  import opened Wrappers
  import opened Decimals
  import Pipelines
  import Protocol

  datatype Kind = INT | INT64 | UINT64 | STRING | BOOL

  datatype Value = Number(n: int) | Text(s: string) | Switch(on: bool)

  type Kinds = map<string, Kind>
  type Raw = map<string, Value>

  datatype Problem =
    | Positional(arg: string)
    | Undefined(name: string)
    | MissingArgument(name: string)
    | Invalid(value: string, name: string)

  datatype Outcome = Parsed(raw: Raw) | Help | Rejected(problem: Problem)

  const INT32_MAX := 2147483647
  const UINT64_MAX := 0xFFFF_FFFF_FFFF_FFFF

  // ------------------------------------------------------------------- values

  predicate AllDecimal(s: string) {
    s != "" && AllDigits(s)
  }

  function Body(value: string): string {
    if value != "" && (value[0] == '+' || value[0] == '-') then value[1..] else value
  }

  function Signed(value: string): int
    requires AllDigits(Body(value))
  {
    var n: int := Val(Body(value));
    if value != "" && value[0] == '-' then -n else n
  }

  function UnsignedBody(value: string): string {
    if value != "" && value[0] == '+' then value[1..] else value
  }

  /** _assign: the value of a flag of some kind, None when malformed. */
  function Assign(kind: Kind, value: string): (r: Option<Value>) {
    match kind
    case INT =>
      if !AllDecimal(Body(value)) || Signed(value) > INT32_MAX || Signed(value) < -INT32_MAX then None
      else Some(Number(Signed(value)))
    case INT64 =>
      if !AllDecimal(Body(value)) then None else Some(Number(Signed(value)))
    case UINT64 =>
      if !AllDecimal(UnsignedBody(value)) || Val(UnsignedBody(value)) > UINT64_MAX then None
      else Some(Number(Val(UnsignedBody(value))))
    case STRING => Some(Text(value))
    case BOOL =>
      if value == "true" then Some(Switch(true))
      else if value == "false" then Some(Switch(false))
      else None
  }

  datatype Sign = Bare | Plus | Minus

  function Prefix(sign: Sign): string {
    match sign case Bare => "" case Plus => "+" case Minus => "-"
  }

  function Apply(sign: Sign, n: int): int {
    if sign == Minus then -n else n
  }

  /** What each kind makes of a text that stands for `n`, and for nothing unsigned if it
      carries a minus. */
  predicate Means(s: string, n: int, unsigned: bool) {
    && Assign(INT64, s) == Some(Number(n))
    && Assign(INT, s) == (if -INT32_MAX <= n <= INT32_MAX then Some(Number(n)) else None)
    && Assign(UINT64, s) == (if unsigned && n <= UINT64_MAX then Some(Number(n)) else None)
  }

  lemma BareNumeral(d: string)
    requires AllDecimal(d)
    ensures Means(d, Val(d), true)
  {
    assert IsDigit(d[0]);
    assert Body(d) == d && UnsignedBody(d) == d;
  }

  lemma PlusNumeral(d: string)
    requires AllDecimal(d)
    ensures Means("+" + d, Val(d), true)
  {
    var s := "+" + d;
    assert Body(s) == d && UnsignedBody(s) == d;
  }

  lemma MinusNumeral(d: string)
    requires AllDecimal(d)
    ensures Means("-" + d, -(Val(d) as int), false)
  {
    var s := "-" + d;
    assert s[0] == '-' && s[1..] == d;
    assert !AllDecimal(s) by {
      assert s[0] in s && !IsDigit(s[0]);
    }
    assert Body(s) == d && UnsignedBody(s) == s && Signed(s) == -(Val(d) as int);
  }

  /** Every decimal numeral means its number, within exactly the bounds of its kind; 32-bit
      values are bounded symmetrically. */
  lemma NumeralsMeanTheirNumbers(sign: Sign, n: nat)
    ensures Means(Prefix(sign) + Decimal(n), Apply(sign, n), sign != Minus)
  {
    var d := Decimal(n);
    ValOfDecimal(n);
    match sign
    case Bare =>
      assert "" + d == d;
      BareNumeral(d);
    case Plus => PlusNumeral(d);
    case Minus => MinusNumeral(d);
  }

  // ------------------------------------------------------------------- parser

  /** The position of the first `=`, or the length. */
  function Equals(s: string): (n: nat)
    ensures n <= |s| && '=' !in s[..n]
    ensures n < |s| ==> s[n] == '='
  {
    if s == "" || s[0] == '=' then 0
    else
      assert forall k :: 0 < k <= |s| ==> s[..k] == [s[0]] + s[1..][..k - 1];
      1 + Equals(s[1..])
  }

  predicate IsFlag(arg: string) {
    arg != "" && arg[0] == '-' && arg != "-"
  }

  /** What follows the one or two dashes. */
  function Stem(arg: string): string
    requires IsFlag(arg)
  {
    if arg[1] == '-' then arg[2..] else arg[1..]
  }

  /** The name of a flag and the value attached to it, if there is one. */
  function SplitStem(stem: string): (string, Option<string>) {
    var eq := Equals(stem);
    if eq < |stem| then (stem[..eq], Some(stem[eq + 1..])) else (stem, None)
  }

  /** One flag at the front of the arguments: its name, its value, how many arguments it
      takes; or why the whole line is not accepted. */
  datatype Item = Item(name: string, value: Value, width: nat) | Stop(outcome: Outcome)

  function Next(kinds: Kinds, argv: seq<string>): (r: Item)
    requires argv != []
    ensures r.Item? ==> r.name in kinds && 1 <= r.width <= |argv|
    ensures r.Stop? ==> !r.outcome.Parsed?
  {
    var arg := argv[0];
    if !IsFlag(arg) then Stop(Rejected(Positional(arg)))
    else if Stem(arg) == "h" || Stem(arg) == "help" then Stop(Help)
    else
      var (name, attached) := SplitStem(Stem(arg));
      if name !in kinds then Stop(Rejected(Undefined(name)))
      else if attached.None? && kinds[name] != BOOL && |argv| == 1 then Stop(Rejected(MissingArgument(name)))
      else
        var value := if attached.Some? then attached.value else if kinds[name] == BOOL then "true" else argv[1];
        var parsed := Assign(kinds[name], value);
        if parsed.None? then Stop(Rejected(Invalid(value, name)))
        else Item(name, parsed.value, if attached.Some? || kinds[name] == BOOL then 1 else 2)
  }

  function Parse(kinds: Kinds, raw: Raw, argv: seq<string>): (r: Outcome)
    decreases |argv|
  {
    if argv == [] then Parsed(raw)
    else
      match Next(kinds, argv)
      case Stop(outcome) => outcome
      case Item(name, value, width) => Parse(kinds, raw[name := value], argv[width..])
  }

  lemma ParseStep(kinds: Kinds, raw: Raw, argv: seq<string>, item: Item, rest: seq<string>)
    requires argv != [] && Next(kinds, argv) == item
    requires item.Item? ==> rest == argv[item.width..]
    ensures Parse(kinds, raw, argv) ==
      if item.Stop? then item.outcome else Parse(kinds, raw[item.name := item.value], rest)
  {
  }

  /** The body of the loop of _parse_argv: the flag at position `i`, and the position after it. */
  method ReadFlag(kinds: Kinds, argv: seq<string>, i: nat) returns (r: Item, end: nat)
    requires i < |argv|
    ensures r == Next(kinds, argv[i..])
    ensures r.Item? ==> i < end <= |argv| && argv[end..] == argv[i..][r.width..]
  {
    end := i;
    var arg := argv[i];
    assert argv[i..][0] == arg;
    if !IsFlag(arg) {
      return Stop(Rejected(Positional(arg))), end;
    }
    if Stem(arg) == "h" || Stem(arg) == "help" {
      return Stop(Help), end;
    }
    var (name, attached) := SplitStem(Stem(arg));
    if name !in kinds {
      return Stop(Rejected(Undefined(name))), end;
    }
    var value;
    if attached.Some? {
      value := attached.value;
    } else if kinds[name] == BOOL {
      value := "true";
    } else if end + 1 < |argv| {
      end := end + 1;
      value := argv[end];
      assert argv[i..][1] == value;
    } else {
      return Stop(Rejected(MissingArgument(name))), end;
    }
    var parsed := Assign(kinds[name], value);
    if parsed.None? {
      return Stop(Rejected(Invalid(value, name))), end;
    }
    end := end + 1;
    return Item(name, parsed.value, end - i), end;
  }

  /** _parse_argv. */
  method ParseArgv(kinds: Kinds, defaults: Raw, argv: seq<string>) returns (r: Outcome)
    ensures r == Parse(kinds, defaults, argv)
  {
    var raw := defaults;
    var i := 0;
    assert argv[0..] == argv;
    while i < |argv|
      invariant i <= |argv| && Parse(kinds, defaults, argv) == Parse(kinds, raw, argv[i..])
    {
      var item, end := ReadFlag(kinds, argv, i);
      if item.Stop? {
        ParseStep(kinds, raw, argv[i..], item, []);
        return item.outcome;
      }
      ParseStep(kinds, raw, argv[i..], item, argv[end..]);
      raw := raw[item.name := item.value];
      i := end;
    }
    return Parsed(raw);
  }

  // --------------------------------------------------------------- renderings

  datatype Style = Apart | Joined | Alone

  /** One way to write one assignment: `-name value`, `-name=value` or, for a boolean set to
      true, `-name`; each with one dash or two. */
  datatype Setting = Setting(name: string, text: string, style: Style, double: bool)

  /** A name the table can hold. */
  predicate Plain(name: string) {
    name != "" && name[0] != '-' && '=' !in name && name != "h" && name != "help"
  }

  predicate PlainTable(kinds: Kinds) {
    forall name :: name in kinds ==> Plain(name)
  }

  predicate Valid(kinds: Kinds, s: Setting) {
    s.name in kinds && Assign(kinds[s.name], s.text).Some? &&
    match s.style
    case Apart => kinds[s.name] != BOOL
    case Joined => true
    case Alone => kinds[s.name] == BOOL && s.text == "true"
  }

  predicate AllValid(kinds: Kinds, settings: seq<Setting>) {
    forall i :: 0 <= i < |settings| ==> Valid(kinds, settings[i])
  }

  function Dashes(double: bool): string {
    if double then "--" else "-"
  }

  function Render(s: Setting): seq<string> {
    match s.style
    case Apart => [Dashes(s.double) + s.name, s.text]
    case Joined => [Dashes(s.double) + s.name + "=" + s.text]
    case Alone => [Dashes(s.double) + s.name]
  }

  function RenderAll(settings: seq<Setting>): seq<string> {
    if settings == [] then [] else Render(settings[0]) + RenderAll(settings[1..])
  }

  /** The defaults overridden in order. */
  function Overridden(kinds: Kinds, raw: Raw, settings: seq<Setting>): Raw
    requires AllValid(kinds, settings)
    decreases |settings|
  {
    if settings == [] then raw
    else
      var s := settings[0];
      Overridden(kinds, raw[s.name := Assign(kinds[s.name], s.text).value], settings[1..])
  }

  lemma EqualsAt(name: string, text: string)
    requires '=' !in name
    ensures Equals(name + "=" + text) == |name|
    ensures Equals(name) == |name|
  {
    var s := name + "=" + text;
    assert s[|name|] == '=' && s[..|name|] == name;
    assert forall k :: 0 <= k < |name| ==> s[k] == name[k];
  }

  lemma StemOf(double: bool, stem: string)
    requires stem != "" && stem[0] != '-'
    ensures IsFlag(Dashes(double) + stem) && Stem(Dashes(double) + stem) == stem
  {
    var arg := Dashes(double) + stem;
    assert arg[|Dashes(double)|..] == stem;
    assert arg[|Dashes(double)|] == stem[0];
  }

  lemma SplitJoined(name: string, text: string)
    requires Plain(name)
    ensures SplitStem(name) == (name, None)
    ensures SplitStem(name + "=" + text) == (name, Some(text))
    ensures name + "=" + text != "h" && name + "=" + text != "help"
  {
    var s := name + "=" + text;
    EqualsAt(name, text);
    assert s[..|name|] == name && s[|name| + 1..] == text;
    assert '=' in s;
    assert '=' !in "h" && '=' !in "help";
  }

  lemma NextIs(kinds: Kinds, argv: seq<string>, double: bool, stem: string, name: string, attached: Option<string>,
               value: string)
    requires argv != [] && argv[0] == Dashes(double) + stem && stem != "" && stem[0] != '-'
    requires stem != "h" && stem != "help" && SplitStem(stem) == (name, attached) && name in kinds
    requires attached.Some? ==> attached.value == value
    requires attached.None? && kinds[name] == BOOL ==> value == "true"
    requires attached.None? && kinds[name] != BOOL ==> |argv| > 1 && argv[1] == value
    requires Assign(kinds[name], value).Some?
    ensures Next(kinds, argv) ==
      Item(name, Assign(kinds[name], value).value, if attached.Some? || kinds[name] == BOOL then 1 else 2)
  {
    StemOf(double, stem);
  }

  /** Every rendering is read back as the assignment it renders, whatever follows it. */
  lemma NextReadsRendering(kinds: Kinds, s: Setting, rest: seq<string>)
    requires PlainTable(kinds) && Valid(kinds, s)
    ensures Next(kinds, Render(s) + rest) ==
      Item(s.name, Assign(kinds[s.name], s.text).value, |Render(s)|)
  {
    var argv := Render(s) + rest;
    SplitJoined(s.name, s.text);
    if s.style == Joined {
      JoinedArgument(Dashes(s.double), s.name, s.text);
      NextIs(kinds, argv, s.double, s.name + "=" + s.text, s.name, Some(s.text), s.text);
    } else {
      NextIs(kinds, argv, s.double, s.name, s.name, None, s.text);
    }
  }

  /** Any mix of spellings parses to the defaults overridden in order, for values that
      contain `=` or begin with `-` too. */
  lemma {:induction false} ParseUndoesRender(kinds: Kinds, raw: Raw, settings: seq<Setting>)
    requires PlainTable(kinds) && AllValid(kinds, settings)
    ensures Parse(kinds, raw, RenderAll(settings)) == Parsed(Overridden(kinds, raw, settings))
    decreases |settings|
  {
    if settings != [] {
      var s, rest := settings[0], RenderAll(settings[1..]);
      NextReadsRendering(kinds, s, rest);
      assert (Render(s) + rest)[|Render(s)|..] == rest;
      ParseUndoesRender(kinds, raw[s.name := Assign(kinds[s.name], s.text).value], settings[1..]);
    }
  }

  /** The spelling of the flag at the front of the arguments. */
  function Spelling(kinds: Kinds, argv: seq<string>): Setting
    requires argv != [] && Next(kinds, argv).Item?
  {
    var double := argv[0][1] == '-';
    var (name, attached) := SplitStem(Stem(argv[0]));
    if attached.Some? then Setting(name, attached.value, Joined, double)
    else if kinds[name] == BOOL then Setting(name, "true", Alone, double)
    else Setting(name, argv[1], Apart, double)
  }

  lemma DashesBack(arg: string)
    requires IsFlag(arg)
    ensures arg == Dashes(arg[1] == '-') + Stem(arg)
  {
    assert arg == arg[..1] + arg[1..];
    if arg[1] == '-' {
      assert arg == arg[..2] + arg[2..];
    }
  }

  lemma SplitBack(stem: string)
    ensures var (name, attached) := SplitStem(stem);
      stem == if attached.Some? then name + "=" + attached.value else name
  {
    var eq := Equals(stem);
    if eq < |stem| {
      assert stem == stem[..eq] + [stem[eq]] + stem[eq + 1..];
    }
  }

  lemma JoinedArgument(dashes: string, name: string, text: string)
    ensures dashes + name + "=" + text == dashes + (name + "=" + text)
  {
  }

  lemma SpellingIsValid(kinds: Kinds, argv: seq<string>)
    requires argv != [] && Next(kinds, argv).Item?
    ensures var s, item := Spelling(kinds, argv), Next(kinds, argv);
      Valid(kinds, s) && s.name == item.name && Assign(kinds[s.name], s.text) == Some(item.value)
  {
  }

  lemma SpellingRenders(kinds: Kinds, argv: seq<string>)
    requires argv != [] && Next(kinds, argv).Item?
    ensures Render(Spelling(kinds, argv)) == argv[..Next(kinds, argv).width]
  {
    var s := Spelling(kinds, argv);
    DashesBack(argv[0]);
    SplitBack(Stem(argv[0]));
    JoinedArgument(Dashes(s.double), s.name, s.text);
  }

  lemma TakeDrop(argv: seq<string>, k: nat)
    requires k <= |argv|
    ensures argv == argv[..k] + argv[k..]
  {
  }

  lemma SpellingInFront(kinds: Kinds, argv: seq<string>, item: Item) returns (s: Setting, rest: seq<string>)
    requires argv != [] && item == Next(kinds, argv) && item.Item?
    ensures Valid(kinds, s) && s.name == item.name && Assign(kinds[s.name], s.text).value == item.value
    ensures argv == Render(s) + rest && rest == argv[item.width..]
  {
    SpellingIsValid(kinds, argv);
    SpellingRenders(kinds, argv);
    TakeDrop(argv, item.width);
    s, rest := Spelling(kinds, argv), argv[item.width..];
  }

  /** An accepted line begins with a rendering of one assignment. */
  lemma FrontSetting(kinds: Kinds, raw: Raw, argv: seq<string>) returns (s: Setting, rest: seq<string>)
    requires argv != [] && Parse(kinds, raw, argv).Parsed?
    ensures Valid(kinds, s) && argv == Render(s) + rest && |rest| < |argv|
    ensures Parse(kinds, raw, argv) == Parse(kinds, raw[s.name := Assign(kinds[s.name], s.text).value], rest)
  {
    var item := Next(kinds, argv);
    s, rest := SpellingInFront(kinds, argv, item);
    ParseStep(kinds, raw, argv, item, rest);
  }

  /** `settings` spells out the line, and parsing it yields what they override. */
  predicate Explains(kinds: Kinds, raw: Raw, argv: seq<string>, settings: seq<Setting>, outcome: Outcome) {
    AllValid(kinds, settings) && RenderAll(settings) == argv && outcome == Parsed(Overridden(kinds, raw, settings))
  }

  lemma ExplainsMore(kinds: Kinds, raw: Raw, argv: seq<string>, s: Setting, rest: seq<string>, more: seq<Setting>,
                     outcome: Outcome)
    requires Valid(kinds, s) && argv == Render(s) + rest
    requires Explains(kinds, raw[s.name := Assign(kinds[s.name], s.text).value], rest, more, outcome)
    ensures Explains(kinds, raw, argv, [s] + more, outcome)
  {
    assert ([s] + more)[1..] == more;
  }

  lemma {:induction false} AcceptedIsExplained(kinds: Kinds, raw: Raw, argv: seq<string>)
    returns (settings: seq<Setting>)
    requires Parse(kinds, raw, argv).Parsed?
    ensures Explains(kinds, raw, argv, settings, Parse(kinds, raw, argv))
    decreases |argv|
  {
    settings := [];
    if argv != [] {
      var s, rest := FrontSetting(kinds, raw, argv);
      var next := raw[s.name := Assign(kinds[s.name], s.text).value];
      var more := AcceptedIsExplained(kinds, next, rest);
      ExplainsMore(kinds, raw, argv, s, rest, more, Parse(kinds, next, rest));
      settings := [s] + more;
    }
  }

  /** A line is accepted exactly when it is a rendering of valid assignments. */
  lemma AcceptedLinesAreRenderings(kinds: Kinds, raw: Raw, argv: seq<string>)
    requires PlainTable(kinds)
    ensures Parse(kinds, raw, argv).Parsed? <==>
      exists settings :: AllValid(kinds, settings) && RenderAll(settings) == argv
  {
    if Parse(kinds, raw, argv).Parsed? {
      var settings := AcceptedIsExplained(kinds, raw, argv);
    }
    forall settings | AllValid(kinds, settings) && RenderAll(settings) == argv
      ensures Parse(kinds, raw, argv).Parsed?
    {
      ParseUndoesRender(kinds, raw, settings);
    }
  }

  function Last(settings: seq<Setting>, name: string): Option<Setting> {
    if settings == [] then None
    else if settings[|settings| - 1].name == name then Some(settings[|settings| - 1])
    else Last(settings[..|settings| - 1], name)
  }

  /** The last assignment to a flag wins; a flag that is not assigned keeps its default. */
  lemma {:induction false} LastWins(kinds: Kinds, raw: Raw, settings: seq<Setting>, name: string)
    requires AllValid(kinds, settings) && name in raw
    ensures name in Overridden(kinds, raw, settings)
    ensures Last(settings, name).Some? ==>
      Valid(kinds, Last(settings, name).value) && Last(settings, name).value.name == name
    ensures Overridden(kinds, raw, settings)[name] ==
      if Last(settings, name).None? then raw[name] else Assign(kinds[name], Last(settings, name).value.text).value
  {
    if settings != [] {
      var init, s := settings[..|settings| - 1], settings[|settings| - 1];
      OverriddenSnoc(kinds, raw, init, s);
      assert init + [s] == settings;
      LastWins(kinds, raw, init, name);
    }
  }

  lemma {:induction false} OverriddenSnoc(kinds: Kinds, raw: Raw, settings: seq<Setting>, s: Setting)
    requires AllValid(kinds, settings) && Valid(kinds, s)
    ensures AllValid(kinds, settings + [s])
    ensures Overridden(kinds, raw, settings + [s]) ==
      Overridden(kinds, raw, settings)[s.name := Assign(kinds[s.name], s.text).value]
    decreases |settings|
  {
    if settings == [] {
      assert settings + [s] == [s];
      var none: seq<Setting> := [];
      assert [s][1..] == none;
    } else {
      var first := settings[0];
      assert (settings + [s])[1..] == settings[1..] + [s];
      OverriddenSnoc(kinds, raw[first.name := Assign(kinds[first.name], first.text).value], settings[1..], s);
    }
  }

  // -------------------------------------------------------- typed assignments

  /** What a flag of some kind can hold; 32-bit values are bounded symmetrically. */
  predicate Holds(kind: Kind, v: Value) {
    match kind
    case INT => v.Number? && -2147483647 <= v.n <= 2147483647
    case INT64 => v.Number?
    case UINT64 => v.Number? && 0 <= v.n < 0x1_0000_0000_0000_0000
    case STRING => v.Text?
    case BOOL => v.Switch?
  }

  /** The texts that stand for a value: a text for itself, the two words for the two switch
      positions, and for a number its digits behind an optional sign, zeros in front of them
      allowed and the minus not for an unsigned flag. */
  ghost predicate Writes(kind: Kind, text: string, v: Value) {
    match v
    case Text(s) => text == s
    case Switch(on) => text == if on then "true" else "false"
    case Number(n) => exists sign: Sign, d: string :: WritesNumber(kind, text, n, sign, d)
  }

  predicate WritesNumber(kind: Kind, text: string, n: int, sign: Sign, d: string) {
    AllDecimal(d) && text == Prefix(sign) + d && n == Apply(sign, Val(d)) && (kind == UINT64 ==> sign != Minus)
  }

  lemma SignedNumeral(text: string, n: int, sign: Sign, d: string, kind: Kind)
    requires WritesNumber(kind, text, n, sign, d) && Holds(kind, Number(n)) && !kind.STRING? && !kind.BOOL?
    ensures Assign(kind, text) == Some(Number(n))
  {
    match sign
    case Bare =>
      assert text == d;
      BareNumeral(d);
    case Plus => PlusNumeral(d);
    case Minus => MinusNumeral(d);
  }

  lemma NumeralOf(kind: Kind, text: string, n: int) returns (sign: Sign, d: string)
    requires Assign(kind, text) == Some(Number(n))
    ensures WritesNumber(kind, text, n, sign, d)
  {
    d := if kind == UINT64 then UnsignedBody(text) else Body(text);
    sign := if d == text then Bare else if text[0] == '+' then Plus else Minus;
    assert text == Prefix(sign) + d;
  }

  /** A text is accepted for a flag exactly when it writes a value the flag can hold, and
      assigns that value. */
  lemma AssignsExactly(kind: Kind, text: string, v: Value)
    ensures Assign(kind, text) == Some(v) <==> Holds(kind, v) && Writes(kind, text, v)
  {
    match v
    case Text(_) =>
    case Switch(_) =>
    case Number(n) =>
      if Assign(kind, text) == Some(v) {
        var sign, d := NumeralOf(kind, text, n);
      }
      if Holds(kind, v) && Writes(kind, text, v) {
        var sign, d :| WritesNumber(kind, text, n, sign, d);
        SignedNumeral(text, n, sign, d, kind);
      }
  }

  /** A value as one would write it; `plus` puts a sign before a number that has none. */
  function Printed(v: Value, plus: bool): string {
    match v
    case Text(s) => s
    case Switch(on) => if on then "true" else "false"
    case Number(n) => if n < 0 then "-" + Decimal(-n) else if plus then "+" + Decimal(n) else Decimal(n)
  }

  lemma PrintedWrites(kind: Kind, v: Value, plus: bool)
    requires Holds(kind, v)
    ensures Writes(kind, Printed(v, plus), v)
  {
    if v.Number? {
      var d := Decimal(if v.n < 0 then -v.n else v.n);
      ValOfDecimal(if v.n < 0 then -v.n else v.n);
      assert "" + d == d;
      assert WritesNumber(kind, Printed(v, plus), v.n, if v.n < 0 then Minus else if plus then Plus else Bare, d);
    }
  }

  /** One way to write the assignment of a value. */
  datatype Typed = Typed(setting: Setting, value: Value)

  /** The text writes the value, which the flag can hold; a boolean takes no value of its own
      argument, and standing alone it means true. */
  ghost predicate WellTyped(kinds: Kinds, t: Typed) {
    var s := t.setting;
    && s.name in kinds && Holds(kinds[s.name], t.value) && Writes(kinds[s.name], s.text, t.value)
    && match s.style
       case Apart => kinds[s.name] != BOOL
       case Joined => true
       case Alone => t.value == Switch(true)
  }

  ghost predicate AllWellTyped(kinds: Kinds, typed: seq<Typed>) {
    forall i :: 0 <= i < |typed| ==> WellTyped(kinds, typed[i])
  }

  function Settings(typed: seq<Typed>): seq<Setting> {
    if typed == [] then [] else [typed[0].setting] + Settings(typed[1..])
  }

  /** The values of a line: each assignment in order on top of what was there. */
  function Given(raw: Raw, typed: seq<Typed>): Raw
    decreases |typed|
  {
    if typed == [] then raw else Given(raw[typed[0].setting.name := typed[0].value], typed[1..])
  }

  lemma TypedIsValid(kinds: Kinds, t: Typed)
    requires WellTyped(kinds, t)
    ensures Valid(kinds, t.setting) && Assign(kinds[t.setting.name], t.setting.text) == Some(t.value)
  {
    AssignsExactly(kinds[t.setting.name], t.setting.text, t.value);
  }

  /** Every line of well-typed assignments, in any mix of spellings, parses to exactly the
      values assigned. */
  lemma {:induction false} ParseGivesValues(kinds: Kinds, raw: Raw, typed: seq<Typed>)
    requires PlainTable(kinds) && AllWellTyped(kinds, typed)
    ensures Parse(kinds, raw, RenderAll(Settings(typed))) == Parsed(Given(raw, typed))
    decreases |typed|
  {
    if typed != [] {
      var t, rest := typed[0], RenderAll(Settings(typed[1..]));
      TypedIsValid(kinds, t);
      NextReadsRendering(kinds, t.setting, rest);
      assert (Render(t.setting) + rest)[|Render(t.setting)|..] == rest;
      assert Settings(typed)[1..] == Settings(typed[1..]);
      ParseGivesValues(kinds, raw[t.setting.name := t.value], typed[1..]);
    }
  }

  ghost predicate Spells(kinds: Kinds, raw: Raw, argv: seq<string>, typed: seq<Typed>, values: Raw) {
    AllWellTyped(kinds, typed) && RenderAll(Settings(typed)) == argv && Given(raw, typed) == values
  }

  lemma FrontTyped(kinds: Kinds, raw: Raw, argv: seq<string>) returns (t: Typed, rest: seq<string>)
    requires argv != [] && Parse(kinds, raw, argv).Parsed?
    ensures WellTyped(kinds, t) && argv == Render(t.setting) + rest && |rest| < |argv|
    ensures Parse(kinds, raw, argv) == Parse(kinds, raw[t.setting.name := t.value], rest)
  {
    var s;
    s, rest := FrontSetting(kinds, raw, argv);
    t := Typed(s, Assign(kinds[s.name], s.text).value);
    AssignsExactly(kinds[s.name], s.text, t.value);
  }

  lemma SpellsMore(kinds: Kinds, raw: Raw, argv: seq<string>, t: Typed, rest: seq<string>, more: seq<Typed>,
                   values: Raw)
    requires WellTyped(kinds, t) && argv == Render(t.setting) + rest
    requires Spells(kinds, raw[t.setting.name := t.value], rest, more, values)
    ensures Spells(kinds, raw, argv, [t] + more, values)
  {
    assert ([t] + more)[1..] == more;
    assert Settings([t] + more) == [t.setting] + Settings(more);
    assert ([t.setting] + Settings(more))[1..] == Settings(more);
  }

  lemma {:induction false} AcceptedIsSpelled(kinds: Kinds, raw: Raw, argv: seq<string>) returns (typed: seq<Typed>)
    requires Parse(kinds, raw, argv).Parsed?
    ensures Spells(kinds, raw, argv, typed, Parse(kinds, raw, argv).raw)
    decreases |argv|
  {
    typed := [];
    if argv != [] {
      var t, rest := FrontTyped(kinds, raw, argv);
      var more := AcceptedIsSpelled(kinds, raw[t.setting.name := t.value], rest);
      SpellsMore(kinds, raw, argv, t, rest, more, Parse(kinds, raw, argv).raw);
      typed := [t] + more;
    }
  }

  /** A line parses to certain values exactly when it spells out well-typed assignments that
      make the defaults into them. */
  lemma ParsesExactly(kinds: Kinds, raw: Raw, argv: seq<string>, values: Raw)
    requires PlainTable(kinds)
    ensures Parse(kinds, raw, argv) == Parsed(values) <==> exists typed :: Spells(kinds, raw, argv, typed, values)
  {
    if Parse(kinds, raw, argv) == Parsed(values) {
      var typed := AcceptedIsSpelled(kinds, raw, argv);
    }
    forall typed | Spells(kinds, raw, argv, typed, values)
      ensures Parse(kinds, raw, argv) == Parsed(values)
    {
      ParseGivesValues(kinds, raw, typed);
    }
  }

  // --------------------------------------------------------------------- help

  predicate AsksHelp(arg: string) {
    arg == "-h" || arg == "--h" || arg == "-help" || arg == "--help"
  }

  /** A line of valid assignments, then a word that asks for help, then anything. */
  predicate HelpLine(kinds: Kinds, argv: seq<string>, settings: seq<Setting>, word: string, rest: seq<string>) {
    AllValid(kinds, settings) && AsksHelp(word) && argv == RenderAll(settings) + ([word] + rest)
  }

  lemma NextIsHelp(kinds: Kinds, argv: seq<string>)
    requires argv != []
    ensures Next(kinds, argv) == Stop(Help) <==> AsksHelp(argv[0])
  {
    var arg := argv[0];
    if IsFlag(arg) {
      DashesBack(arg);
      assert "-" + "h" == "-h" && "--" + "h" == "--h" && "-" + "help" == "-help" && "--" + "help" == "--help";
    }
    if AsksHelp(arg) {
      assert Stem(arg) == "h" || Stem(arg) == "help";
    }
  }

  lemma {:induction false} HelpIsReached(kinds: Kinds, raw: Raw, argv: seq<string>, settings: seq<Setting>,
                                         word: string, rest: seq<string>)
    requires PlainTable(kinds) && HelpLine(kinds, argv, settings, word, rest)
    ensures Parse(kinds, raw, argv) == Help
    decreases |settings|
  {
    NextIsHelp(kinds, argv);
    if settings != [] {
      var s, tail := settings[0], RenderAll(settings[1..]) + ([word] + rest);
      assert argv == Render(s) + tail;
      NextReadsRendering(kinds, s, tail);
      assert argv[|Render(s)|..] == tail;
      HelpIsReached(kinds, raw[s.name := Assign(kinds[s.name], s.text).value], tail, settings[1..], word, rest);
    }
  }

  lemma {:induction false} HelpIsAsked(kinds: Kinds, raw: Raw, argv: seq<string>)
    returns (settings: seq<Setting>, word: string, rest: seq<string>)
    requires Parse(kinds, raw, argv) == Help
    ensures HelpLine(kinds, argv, settings, word, rest)
    decreases |argv|
  {
    var item := Next(kinds, argv);
    if item.Stop? {
      NextIsHelp(kinds, argv);
      settings, word, rest := [], argv[0], argv[1..];
    } else {
      var s, tail := SpellingInFront(kinds, argv, item);
      ParseStep(kinds, raw, argv, item, tail);
      settings, word, rest := HelpIsAsked(kinds, raw[item.name := item.value], tail);
      assert ([s] + settings)[1..] == settings;
      settings := [s] + settings;
    }
  }

  /** Help is given exactly when it is asked for before anything on the line is wrong. */
  lemma HelpExactly(kinds: Kinds, raw: Raw, argv: seq<string>)
    requires PlainTable(kinds)
    ensures Parse(kinds, raw, argv) == Help <==>
      exists settings, word, rest :: HelpLine(kinds, argv, settings, word, rest)
  {
    if Parse(kinds, raw, argv) == Help {
      var settings, word, rest := HelpIsAsked(kinds, raw, argv);
    }
    forall settings, word, rest | HelpLine(kinds, argv, settings, word, rest)
      ensures Parse(kinds, raw, argv) == Help
    {
      HelpIsReached(kinds, raw, argv, settings, word, rest);
    }
  }

  // ----------------------------------------------------------------- refusals

  /** What is wrong with the front of a line: no flag at all, a name the table lacks, a flag
      at the end without its argument, or a text that writes nothing the flag can hold. */
  ghost predicate Faulty(kinds: Kinds, argv: seq<string>, problem: Problem) {
    argv != [] &&
    match problem
    case Positional(arg) => argv[0] == arg && (arg == "" || arg == "-" || arg[0] != '-')
    case Undefined(name) =>
      name !in kinds && exists double :: argv[0] == Dashes(double) + name || Dashes(double) + name + "=" <= argv[0]
    case MissingArgument(name) =>
      name in kinds && kinds[name] != BOOL && exists double :: argv == [Dashes(double) + name]
    case Invalid(text, name) =>
      && name in kinds && (forall v :: !(Holds(kinds[name], v) && Writes(kinds[name], text, v)))
      && exists style, double :: Render(Setting(name, text, style, double)) <= argv
  }

  lemma WritesNothing(kind: Kind, text: string)
    requires Assign(kind, text).None?
    ensures forall v :: !(Holds(kind, v) && Writes(kind, text, v))
  {
    forall v
      ensures !(Holds(kind, v) && Writes(kind, text, v))
    {
      AssignsExactly(kind, text, v);
    }
  }

  /** A flag is its dashes, its name and what is attached to the name. */
  lemma ArgumentForm(arg: string) returns (double: bool, name: string, attached: Option<string>)
    requires IsFlag(arg)
    ensures (name, attached) == SplitStem(Stem(arg))
    ensures arg == if attached.Some? then Dashes(double) + name + "=" + attached.value else Dashes(double) + name
  {
    DashesBack(arg);
    SplitBack(Stem(arg));
    double, name, attached := arg[1] == '-', SplitStem(Stem(arg)).0, SplitStem(Stem(arg)).1;
    if attached.Some? {
      JoinedArgument(Dashes(double), name, attached.value);
    }
  }

  lemma UndefinedIsFaulty(kinds: Kinds, argv: seq<string>, double: bool, name: string, attached: Option<string>)
    requires argv != [] && name !in kinds
    requires argv[0] == if attached.Some? then Dashes(double) + name + "=" + attached.value else Dashes(double) + name
    ensures Faulty(kinds, argv, Undefined(name))
  {
    if attached.Some? {
      assert Dashes(double) + name + "=" <= argv[0];
    }
  }

  lemma InvalidIsFaulty(kinds: Kinds, argv: seq<string>, double: bool, name: string, text: string, joined: bool)
    requires name in kinds && Assign(kinds[name], text).None?
    requires if joined then |argv| > 0 && argv[0] == Dashes(double) + name + "=" + text
             else |argv| > 1 && argv[0] == Dashes(double) + name && argv[1] == text
    ensures Faulty(kinds, argv, Invalid(text, name))
  {
    WritesNothing(kinds[name], text);
    if joined {
      assert Render(Setting(name, text, Joined, double)) == argv[..1];
    } else {
      assert Render(Setting(name, text, Apart, double)) == argv[..2];
    }
  }

  lemma StopIsFaulty(kinds: Kinds, argv: seq<string>, problem: Problem)
    requires argv != [] && Next(kinds, argv) == Stop(Rejected(problem))
    ensures Faulty(kinds, argv, problem)
  {
    if !problem.Positional? {
      var double, name, attached := ArgumentForm(argv[0]);
      match problem
      case Positional(_) =>
      case Undefined(_) => UndefinedIsFaulty(kinds, argv, double, name, attached);
      case MissingArgument(_) =>
      case Invalid(text, _) => InvalidIsFaulty(kinds, argv, double, name, text, attached.Some?);
    }
  }

  /** A refusal names the first fault of the line: everything before it is valid. */
  lemma {:induction false} RefusalsNameTheFirstFault(kinds: Kinds, raw: Raw, argv: seq<string>)
    returns (settings: seq<Setting>, rest: seq<string>)
    requires Parse(kinds, raw, argv).Rejected?
    ensures AllValid(kinds, settings) && argv == RenderAll(settings) + rest
    ensures Faulty(kinds, rest, Parse(kinds, raw, argv).problem)
    decreases |argv|
  {
    var item := Next(kinds, argv);
    if item.Stop? {
      StopIsFaulty(kinds, argv, item.outcome.problem);
      settings, rest := [], argv;
    } else {
      var s, tail := SpellingInFront(kinds, argv, item);
      ParseStep(kinds, raw, argv, item, tail);
      settings, rest := RefusalsNameTheFirstFault(kinds, raw[item.name := item.value], tail);
      assert ([s] + settings)[1..] == settings;
      settings := [s] + settings;
    }
  }

  // -------------------------------------------------------------------- table

  datatype Flag = Flag(name: string, kind: Kind, default: Value)

  const FLAGS: seq<Flag> := [
    Flag("barrier-fill", INT, Number(0)), Flag("blob-cycle-every", INT64, Number(0)),
    Flag("blob-mode", INT, Number(1)), Flag("chunk-size", STRING, Text("0")),
    Flag("drbg", STRING, Text("")), Flag("duration", STRING, Text("5m")),
    Flag("gogc", INT, Number(0)), Flag("gomaxprocs", INT, Number(0)),
    Flag("goroutines", INT, Number(3)), Flag("hash", STRING, Text("areion512")),
    Flag("interlock", STRING, Text("")), Flag("iterations", INT64, Number(0)),
    Flag("json-output", BOOL, Switch(false)), Flag("key-bits", INT, Number(0)),
    Flag("mac", STRING, Text("hmac-blake3")), Flag("memlimit", STRING, Text("auto")),
    Flag("memprofile", STRING, Text("")), Flag("nonce-bits", INT, Number(0)),
    Flag("parallax", STRING, Text("on")), Flag("payload-mode", STRING, Text("fixed")),
    Flag("payload-size", STRING, Text("16MB")), Flag("profile", STRING, Text("")),
    Flag("rekey-every", INT64, Number(0)), Flag("seed", UINT64, Number(0)),
    Flag("shape", STRING, Text("stream")), Flag("wrapper", STRING, Text("on"))]

  function KindsOf(flags: seq<Flag>): Kinds {
    if flags == [] then map[] else KindsOf(flags[..|flags| - 1])[flags[|flags| - 1].name := flags[|flags| - 1].kind]
  }

  function DefaultsOf(flags: seq<Flag>): Raw {
    if flags == [] then map[]
    else DefaultsOf(flags[..|flags| - 1])[flags[|flags| - 1].name := flags[|flags| - 1].default]
  }

  lemma {:induction false} TableOf(flags: seq<Flag>)
    requires forall f :: f in flags ==> Plain(f.name)
    ensures PlainTable(KindsOf(flags)) && KindsOf(flags).Keys == DefaultsOf(flags).Keys
    ensures forall name :: name in KindsOf(flags) <==> exists f :: f in flags && f.name == name
  {
    if flags != [] {
      var init, f := flags[..|flags| - 1], flags[|flags| - 1];
      TableOf(init);
      assert flags == init + [f];
    }
  }

  lemma EarlyNamesArePlain(i: nat)
    requires i < 9
    ensures Plain(FLAGS[i].name)
  {
  }

  lemma MiddleNamesArePlain(i: nat)
    requires 9 <= i < 18
    ensures Plain(FLAGS[i].name)
  {
  }

  lemma LateNamesArePlain(i: nat)
    requires 18 <= i < 26
    ensures Plain(FLAGS[i].name)
  {
  }

  /** The table's own names can be told apart from their dashes and their values, so the
      parser inverts every rendering over it. */
  lemma CommandLineRoundTrip(settings: seq<Setting>)
    requires AllValid(KindsOf(FLAGS), settings)
    ensures Parse(KindsOf(FLAGS), DefaultsOf(FLAGS), RenderAll(settings)) ==
      Parsed(Overridden(KindsOf(FLAGS), DefaultsOf(FLAGS), settings))
  {
    forall f | f in FLAGS
      ensures Plain(f.name)
    {
      var i :| 0 <= i < |FLAGS| && FLAGS[i] == f;
      if i < 9 {
        EarlyNamesArePlain(i);
      } else if i < 18 {
        MiddleNamesArePlain(i);
      } else {
        LateNamesArePlain(i);
      }
    }
    TableOf(FLAGS);
    ParseUndoesRender(KindsOf(FLAGS), DefaultsOf(FLAGS), settings);
  }

  /** Tells the names of the table apart. */
  function Code(name: string): nat {
    if |name| < 3 then 0 else |name| * 0x1_0000 + name[0] as nat * 0x100 + name[|name| - 3] as nat
  }

  const CODES: seq<nat> := [
    811625, 1073765, 615023, 680809, 287858, 549993, 288623, 681839, 681838, 288865, 616815, 682351, 748144,
    551785, 224621, 552301, 683369, 683625, 553068, 815215, 815209, 487529, 750181, 291685, 357217, 489328]

  lemma FirstCodes(i: nat)
    requires 0 <= i < 7
    ensures Code(FLAGS[i].name) == CODES[i]
  {
  }

  lemma SecondCodes(i: nat)
    requires 7 <= i < 13
    ensures Code(FLAGS[i].name) == CODES[i]
  {
  }

  lemma ThirdCodes(i: nat)
    requires 13 <= i < 19
    ensures Code(FLAGS[i].name) == CODES[i]
  {
  }

  lemma FourthCodes(i: nat)
    requires 19 <= i < 26
    ensures Code(FLAGS[i].name) == CODES[i]
  {
  }

  lemma CodeOf(i: nat)
    requires i < 26
    ensures Code(FLAGS[i].name) == CODES[i]
  {
    if i < 7 {
      FirstCodes(i);
    } else if i < 13 {
      SecondCodes(i);
    } else if i < 19 {
      ThirdCodes(i);
    } else {
      FourthCodes(i);
    }
  }

  lemma CodesDiffer(i: nat, j: nat)
    requires i < j < 26
    ensures CODES[i] != CODES[j]
  {
  }

  /** An entry is found under its name when no later entry has the same. */
  lemma {:induction false} EntryCounts(flags: seq<Flag>, i: nat)
    requires i < |flags| && forall j :: i < j < |flags| ==> flags[j].name != flags[i].name
    ensures flags[i].name in KindsOf(flags) && KindsOf(flags)[flags[i].name] == flags[i].kind
    ensures flags[i].name in DefaultsOf(flags) && DefaultsOf(flags)[flags[i].name] == flags[i].default
  {
    if i < |flags| - 1 {
      EntryCounts(flags[..|flags| - 1], i);
    }
  }

  /** Every entry of the table is found under its name: none hides another. */
  lemma TableEntries(i: nat)
    requires i < 26
    ensures FLAGS[i].name in KindsOf(FLAGS) && KindsOf(FLAGS)[FLAGS[i].name] == FLAGS[i].kind
    ensures FLAGS[i].name in DefaultsOf(FLAGS) && DefaultsOf(FLAGS)[FLAGS[i].name] == FLAGS[i].default
  {
    forall j | i < j < |FLAGS|
      ensures FLAGS[j].name != FLAGS[i].name
    {
      CodeOf(i);
      CodeOf(j);
      CodesDiffer(i, j);
    }
    EntryCounts(FLAGS, i);
  }

  /** Every default is a value its flag can hold. */
  lemma DefaultsAreHeld(i: nat)
    requires i < 26
    ensures Holds(FLAGS[i].kind, FLAGS[i].default)
  {
  }

  /** `flags` is the table, and the rest what it makes. */
  predicate IsTable(flags: seq<Flag>, kinds: Kinds, raw: Raw) {
    flags == FLAGS && kinds == KindsOf(flags) && raw == DefaultsOf(flags)
  }

  lemma Entry(flags: seq<Flag>, kinds: Kinds, raw: Raw, i: nat, f: Flag)
    requires IsTable(flags, kinds, raw) && i < 26 && flags[i] == f
    ensures f.name in raw && raw[f.name] == f.default && f.name in kinds && kinds[f.name] == f.kind
  {
    TableEntries(i);
  }

  /** Without arguments three workers run, without an iteration budget. */
  lemma BareWorkers(flags: seq<Flag>, kinds: Kinds, raw: Raw)
    requires IsTable(flags, kinds, raw)
    ensures "goroutines" in raw && raw["goroutines"] == Number(3)
    ensures "goroutines" in kinds && kinds["goroutines"] == INT
    ensures "iterations" in raw && raw["iterations"] == Number(0)
    ensures "iterations" in kinds && kinds["iterations"] == INT64
  {
    Entry(flags, kinds, raw, 8, Flag("goroutines", INT, Number(3)));
    Entry(flags, kinds, raw, 11, Flag("iterations", INT64, Number(0)));
  }

  /** They run the stream shape, for five minutes. */
  lemma BareRun(flags: seq<Flag>, kinds: Kinds, raw: Raw)
    requires IsTable(flags, kinds, raw)
    ensures "duration" in raw && raw["duration"] == Text("5m")
    ensures "duration" in kinds && kinds["duration"] == STRING
    ensures "shape" in raw && raw["shape"] == Text("stream")
    ensures "shape" in kinds && kinds["shape"] == STRING
  {
    Entry(flags, kinds, raw, 5, Flag("duration", STRING, Text("5m")));
    Entry(flags, kinds, raw, 24, Flag("shape", STRING, Text("stream")));
  }

  /** They do so unseeded and without maintenance; the counts are 64 bits wide. */
  lemma BareMaintenance(flags: seq<Flag>, kinds: Kinds, raw: Raw)
    requires IsTable(flags, kinds, raw)
    ensures "blob-cycle-every" in raw && raw["blob-cycle-every"] == Number(0)
    ensures "blob-cycle-every" in kinds && kinds["blob-cycle-every"] == INT64
    ensures "rekey-every" in raw && raw["rekey-every"] == Number(0)
    ensures "rekey-every" in kinds && kinds["rekey-every"] == INT64
    ensures "seed" in raw && raw["seed"] == Number(0)
    ensures "seed" in kinds && kinds["seed"] == UINT64
  {
    Entry(flags, kinds, raw, 1, Flag("blob-cycle-every", INT64, Number(0)));
    Entry(flags, kinds, raw, 22, Flag("rekey-every", INT64, Number(0)));
    Entry(flags, kinds, raw, 23, Flag("seed", UINT64, Number(0)));
  }

  /** The payloads are fixed and of 16MB. */
  lemma BarePayload(flags: seq<Flag>, kinds: Kinds, raw: Raw)
    requires IsTable(flags, kinds, raw)
    ensures "payload-mode" in raw && raw["payload-mode"] == Text("fixed")
    ensures "payload-mode" in kinds && kinds["payload-mode"] == STRING
    ensures "payload-size" in raw && raw["payload-size"] == Text("16MB")
    ensures "payload-size" in kinds && kinds["payload-size"] == STRING
  {
    Entry(flags, kinds, raw, 19, Flag("payload-mode", STRING, Text("fixed")));
    Entry(flags, kinds, raw, 20, Flag("payload-size", STRING, Text("16MB")));
  }

  /** Both layers are on. */
  lemma BareLayers(flags: seq<Flag>, kinds: Kinds, raw: Raw)
    requires IsTable(flags, kinds, raw)
    ensures "parallax" in raw && raw["parallax"] == Text("on")
    ensures "parallax" in kinds && kinds["parallax"] == STRING
    ensures "wrapper" in raw && raw["wrapper"] == Text("on")
    ensures "wrapper" in kinds && kinds["wrapper"] == STRING
  {
    Entry(flags, kinds, raw, 18, Flag("parallax", STRING, Text("on")));
    Entry(flags, kinds, raw, 25, Flag("wrapper", STRING, Text("on")));
  }

  // -------------------------------------------------------------------- shape

  /** _narrow_shape: the profile's surface applied to the requested shape. */
  function NarrowShape(requested: Protocol.Shape, surface: Pipelines.Which): Protocol.Shape {
    if surface == Pipelines.Message then Protocol.MessageShape
    else if requested == Protocol.OneShotShape then Protocol.OneShotShape
    else Protocol.StreamShape
  }

  /** A run under a single profile builds exactly the one pipeline the profile can carry, and
      every iteration dispatches to it. */
  lemma NarrowedRunsStayOnTheSurface(cfg: Protocol.Config, surface: Pipelines.Which, w: Pipelines.Which, it: nat)
    ensures var c := cfg.(shape := NarrowShape(cfg.shape, surface));
      (Protocol.Needs(c, w) <==> w == surface) && Protocol.PipeFor(Protocol.SurfaceOf(c, it)) == surface
  {
  }

  /** The requested shape is kept exactly when the profile carries everything it exercises; else
      the run exercises the plain surface of the profile. */
  lemma NarrowsExactly(cfg: Protocol.Config, surface: Pipelines.Which)
    ensures NarrowShape(cfg.shape, surface) ==
      if forall w :: Protocol.Needs(cfg, w) ==> w == surface then cfg.shape
      else if surface == Pipelines.Message then Protocol.MessageShape else Protocol.StreamShape
  {
    assert Protocol.Needs(cfg, Pipelines.Stream) <==> cfg.shape != Protocol.MessageShape;
    assert Protocol.Needs(cfg, Pipelines.Message) <==>
      cfg.shape == Protocol.MessageShape || cfg.shape == Protocol.BothShapes;
  }
}
