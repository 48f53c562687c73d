/** The template that builds a container name from labels: its textual form, the scanner that reads
    it, a printer that the scanner undoes, and rendering. */
module ContainerTemplate {
  import opened Wrappers

  // ---------- Text ----------

  // Unicode white space.
  predicate IsSpace(c: char) {
    || '\t' <= c <= '\r' || c == ' ' || c == '\U{0085}' || c == '\U{00A0}' || c == '\U{1680}'
    || '\U{2000}' <= c <= '\U{200A}' || c == '\U{2028}' || c == '\U{2029}' || c == '\U{202F}'
    || c == '\U{205F}' || c == '\U{3000}'
  }

  // The first position from `i` on that is not a space.
  function Leading(s: string, i: nat): (a: nat)
    requires i <= |s|
    ensures i <= a <= |s|
    decreases |s| - i
  {
    if i < |s| && IsSpace(s[i]) then Leading(s, i + 1) else i
  }

  // The end of what is left when the spaces before `j` are cut off.
  function Trailing(s: string, j: nat): (b: nat)
    requires j <= |s|
    ensures b <= j
  {
    if j > 0 && IsSpace(s[j - 1]) then Trailing(s, j - 1) else j
  }

  function TrimSpace(s: string): string {
    var a, b := Leading(s, 0), Trailing(s, |s|);
    if a < b then s[a..b] else ""
  }

  predicate Trimmed(s: string) {
    s == [] || (!IsSpace(s[0]) && !IsSpace(s[|s| - 1]))
  }

  lemma {:induction false} LeadingStops(s: string, i: nat)
    requires i <= |s|
    ensures Leading(s, i) < |s| ==> !IsSpace(s[Leading(s, i)])
    decreases |s| - i
  {
    if i < |s| && IsSpace(s[i]) {
      LeadingStops(s, i + 1);
    }
  }

  lemma {:induction false} TrailingStops(s: string, j: nat)
    requires j <= |s|
    ensures Trailing(s, j) > 0 ==> !IsSpace(s[Trailing(s, j) - 1])
  {
    if j > 0 && IsSpace(s[j - 1]) {
      TrailingStops(s, j - 1);
    }
  }

  lemma {:induction false} TrimSpaceTrims(s: string)
    ensures Trimmed(TrimSpace(s))
    ensures Trimmed(s) ==> TrimSpace(s) == s
  {
    LeadingStops(s, 0);
    TrailingStops(s, |s|);
  }

  // ---------- Templates ----------

  // `key` set: the part stands for the value of that label.
  datatype Part = Part(literal: string, key: string)

  datatype ParseError = Unterminated(at: nat) | EmptyLabel(at: nat) | BareDollar(at: nat)

  datatype Parsed = Template(parts: seq<Part>) | Refused(error: ParseError)

  // The first occurrence from `i` on, or the length.
  function IndexOf(s: string, c: char, i: nat): (k: nat)
    requires i <= |s|
    ensures i <= k <= |s|
    decreases |s| - i
  {
    if i == |s| || s[i] == c then i else IndexOf(s, c, i + 1)
  }

  lemma {:induction false} IndexOfIsFirst(s: string, c: char, i: nat)
    requires i <= |s|
    ensures IndexOf(s, c, i) < |s| ==> s[IndexOf(s, c, i)] == c
    ensures forall k :: i <= k < IndexOf(s, c, i) ==> s[k] != c
    decreases |s| - i
  {
    if i < |s| && s[i] != c {
      IndexOfIsFirst(s, c, i + 1);
    }
  }

  // A template is read in turns: each takes a character of literal text or a label reference.
  datatype Token = Chr(c: char) | Key(key: string)

  datatype Turn = End | Bad(error: ParseError) | Take(token: Token, width: nat)

  // A label reference, with `left` what follows its opening brace.
  function LabelTurn(left: string, at: nat): (t: Turn)
    ensures t.Take? ==> 3 <= t.width <= |left| + 2
  {
    var end := IndexOf(left, '}', 0);
    if end == |left| then Bad(Unterminated(at))
    else if TrimSpace(left[..end]) == [] then Bad(EmptyLabel(at))
    else Take(Key(TrimSpace(left[..end])), end + 3)
  }

  // How the rest of a label reference is read; the scan itself does not depend on it.
  type LabelReader = (string, nat) -> Turn

  ghost predicate Proper(reader: LabelReader) {
    forall left, at :: reader(left, at).Take? ==> 3 <= reader(left, at).width <= |left| + 2
  }

  // What the scan does with `left`, which starts at position `at`.
  function TurnOf(reader: LabelReader, left: string, at: nat): (t: Turn)
    requires Proper(reader)
    ensures t.Take? ==> 0 < t.width <= |left|
  {
    if left == [] then End
    else if left[0] != '$' then Take(Chr(left[0]), 1)
    else if |left| > 1 && left[1] == '$' then Take(Chr('$'), 2)
    else if |left| > 1 && left[1] == '{' then reader(left[2..], at)
    else Bad(BareDollar(at))
  }

  // All tokens, up to the error that stops the scan if there is one.
  function Tokens(reader: LabelReader, left: string, at: nat): (seq<Token>, Option<ParseError>)
    requires Proper(reader)
    decreases |left|
  {
    match TurnOf(reader, left, at)
    case End => ([], None)
    case Bad(error) => ([], Some(error))
    case Take(token, width) =>
      var (tokens, error) := Tokens(reader, left[width..], at + width);
      ([token] + tokens, error)
  }

  function Flush(parts: seq<Part>, literal: string): seq<Part> {
    if literal == [] then parts else parts + [Part(literal, "")]
  }

  // The parts that tokens make, with `literal` in the buffer.
  function Assembled(literal: string, tokens: seq<Token>): seq<Part>
    decreases |tokens|
  {
    if tokens == [] then Flush([], literal)
    else match tokens[0]
      case Chr(c) => Assembled(literal + [c], tokens[1..])
      case Key(key) => Flush([], literal) + ([Part("", key)] + Assembled("", tokens[1..]))
  }

  function Parse(text: string): Parsed {
    var value := TrimSpace(text);
    if '$' !in value then Template([Part("", value)])
    else
      var (tokens, error) := Tokens(LabelTurn, value, 0);
      if error.Some? then Refused(error.value) else Template(Assembled("", tokens))
  }

  // ---------- Printing ----------

  // A dollar sign is doubled, a label is written ${key}.
  function PrintToken(t: Token): string {
    match t
    case Chr(c) => if c == '$' then "$$" else [c]
    case Key(key) => "${" + (key + "}")
  }

  function PrintTokens(tokens: seq<Token>): string {
    if tokens == [] then [] else PrintToken(tokens[0]) + PrintTokens(tokens[1..])
  }

  function Chars(literal: string): seq<Token> {
    seq(|literal|, i requires 0 <= i < |literal| => Chr(literal[i]))
  }

  function TokensOf(parts: seq<Part>): seq<Token> {
    if parts == [] then []
    else (if parts[0].key == [] then Chars(parts[0].literal) else [Key(parts[0].key)]) + TokensOf(parts[1..])
  }

  function Print(parts: seq<Part>): string {
    PrintTokens(TokensOf(parts))
  }

  predicate ValidKey(key: string) {
    key != [] && Trimmed(key) && '}' !in key
  }

  predicate ValidTokens(tokens: seq<Token>) {
    tokens == [] || ((tokens[0].Key? ==> ValidKey(tokens[0].key)) && ValidTokens(tokens[1..]))
  }

  predicate ValidPart(p: Part) {
    if p.key == [] then p.literal != [] else p.literal == [] && ValidKey(p.key)
  }

  // Literals are not empty and not next to one another.
  predicate Normalized(parts: seq<Part>) {
    parts == [] ||
    (&& ValidPart(parts[0]) && Normalized(parts[1..])
     && (parts[0].key == [] && |parts| > 1 ==> parts[1].key != []))
  }

  // ---------- Scanning undoes printing ----------

  lemma {:induction false} LabelTurnOfPrinted(key: string, tail: string, at: nat)
    requires ValidKey(key)
    ensures LabelTurn(key + ("}" + tail), at) == Take(Key(key), |key| + 3)
  {
    var left := key + ("}" + tail);
    IndexOfIsFirst(left, '}', 0);
    assert left[|key|] == '}' && forall k :: 0 <= k < |key| ==> left[k] == key[k];
    assert IndexOf(left, '}', 0) == |key|;
    assert left[..|key|] == key;
    TrimSpaceTrims(key);
  }

  ghost predicate ReadsPrinted(reader: LabelReader) {
    forall key, tail, at | ValidKey(key) :: reader(key + ("}" + tail), at) == Take(Key(key), |key| + 3)
  }

  lemma {:induction false} TurnOfPrinted(reader: LabelReader, t: Token, tail: string, at: nat)
    requires Proper(reader) && ReadsPrinted(reader)
    requires t.Key? ==> ValidKey(t.key)
    ensures TurnOf(reader, PrintToken(t) + tail, at) == Take(t, |PrintToken(t)|)
  {
    if t.Key? {
      assert (PrintToken(t) + tail)[2..] == t.key + ("}" + tail);
    }
  }

  lemma {:induction false} TokensTake(reader: LabelReader, t: Token, text: string, tail: string, at: nat, tokens: seq<Token>)
    requires Proper(reader) && TurnOf(reader, text + tail, at) == Take(t, |text|)
    requires Tokens(reader, tail, at + |text|) == (tokens, None)
    ensures Tokens(reader, text + tail, at) == ([t] + tokens, None)
  {
    assert (text + tail)[|text|..] == tail;
  }

  lemma {:induction false} TokensOfPrinted(reader: LabelReader, tokens: seq<Token>, printed: string, at: nat)
    requires Proper(reader) && ReadsPrinted(reader)
    requires ValidTokens(tokens) && printed == PrintTokens(tokens)
    ensures Tokens(reader, printed, at) == (tokens, None)
    decreases |tokens|
  {
    if tokens != [] {
      var t, rest := tokens[0], tokens[1..];
      var text, tail := PrintToken(t), PrintTokens(rest);
      TokensOfPrinted(reader, rest, tail, at + |text|);
      TurnOfPrinted(reader, t, tail, at);
      TokensTake(reader, t, text, tail, at, rest);
      assert printed == text + tail && tokens == [t] + rest;
    }
  }

  // Characters go to the buffer.
  lemma {:induction false} AssembledChars(buffer: string, literal: string, rest: seq<Token>)
    ensures Assembled(buffer, Chars(literal) + rest) == Assembled(buffer + literal, rest)
    decreases literal
  {
    if literal == [] {
      assert Chars(literal) + rest == rest && buffer + literal == buffer;
    } else {
      assert (Chars(literal) + rest)[1..] == Chars(literal[1..]) + rest;
      AssembledChars(buffer + [literal[0]], literal[1..], rest);
      assert (buffer + [literal[0]]) + literal[1..] == buffer + literal;
    }
  }

  // A buffer in front of tokens that do not begin with a character is a part of its own.
  lemma {:induction false} AssembledFlush(buffer: string, tokens: seq<Token>)
    requires tokens != [] ==> tokens[0].Key?
    ensures Assembled(buffer, tokens) == Flush([], buffer) + Assembled("", tokens)
  {
  }

  lemma {:induction false} AssembledTokensOf(parts: seq<Part>)
    requires Normalized(parts)
    ensures Assembled("", TokensOf(parts)) == parts
    decreases |parts|
  {
    if parts != [] {
      var p, rest := parts[0], parts[1..];
      AssembledTokensOf(rest);
      if p.key == [] {
        AssembledChars("", p.literal, TokensOf(rest));
        assert "" + p.literal == p.literal;
        AssembledFlush(p.literal, TokensOf(rest));
      } else {
        assert TokensOf(parts)[0] == Key(p.key) && TokensOf(parts)[1..] == TokensOf(rest);
      }
      assert parts == [p] + rest;
    }
  }

  lemma {:induction false} CharsThenValid(literal: string, rest: seq<Token>)
    requires ValidTokens(rest)
    ensures ValidTokens(Chars(literal) + rest)
  {
    if literal == [] {
      assert Chars(literal) + rest == rest;
    } else {
      assert (Chars(literal) + rest)[1..] == Chars(literal[1..]) + rest;
      CharsThenValid(literal[1..], rest);
    }
  }

  lemma {:induction false} TokensOfValid(parts: seq<Part>)
    requires Normalized(parts)
    ensures ValidTokens(TokensOf(parts))
  {
    if parts != [] {
      TokensOfValid(parts[1..]);
      if parts[0].key == [] {
        CharsThenValid(parts[0].literal, TokensOf(parts[1..]));
      } else {
        assert TokensOf(parts)[1..] == TokensOf(parts[1..]);
      }
    }
  }

  // Parsing undoes printing.
  lemma {:induction false} TemplateRoundTrip(parts: seq<Part>)
    requires Normalized(parts) && Trimmed(Print(parts)) && '$' in Print(parts)
    ensures Parse(Print(parts)) == Template(parts)
  {
    TrimSpaceTrims(Print(parts));
    TokensOfValid(parts);
    forall key, tail, at | ValidKey(key) ensures LabelTurn(key + ("}" + tail), at) == Take(Key(key), |key| + 3) {
      LabelTurnOfPrinted(key, tail, at);
    }
    TokensOfPrinted(LabelTurn, TokensOf(parts), Print(parts), 0);
    AssembledTokensOf(parts);
  }

  // ---------- What the parser accepts ----------

  lemma {:induction false} LabelIsValid(left: string, at: nat)
    requires LabelTurn(left, at).Take?
    ensures LabelTurn(left, at).token.Key? && ValidKey(LabelTurn(left, at).token.key)
  {
    var inner := left[..IndexOf(left, '}', 0)];
    IndexOfIsFirst(left, '}', 0);
    assert forall c <- TrimSpace(inner) :: c in inner;
    TrimSpaceTrims(inner);
  }

  ghost predicate ReadsValid(reader: LabelReader) {
    forall left, at | reader(left, at).Take? :: reader(left, at).token.Key? ==> ValidKey(reader(left, at).token.key)
  }

  lemma {:induction false} TokensValid(reader: LabelReader, left: string, at: nat)
    requires Proper(reader) && ReadsValid(reader)
    ensures ValidTokens(Tokens(reader, left, at).0)
    decreases |left|
  {
    var turn := TurnOf(reader, left, at);
    if turn.Take? {
      TokensValid(reader, left[turn.width..], at + turn.width);
    }
  }

  // The parts of a parsed template are in normal form, and stand for the tokens read.
  lemma {:induction false} AssembledNormal(literal: string, tokens: seq<Token>)
    requires ValidTokens(tokens)
    ensures Normalized(Assembled(literal, tokens))
    ensures TokensOf(Assembled(literal, tokens)) == Chars(literal) + tokens
    decreases |tokens|
  {
    if tokens == [] {
      FlushNormal(literal, []);
    } else {
      var t, rest := tokens[0], tokens[1..];
      assert tokens == [t] + rest;
      match t
      case Chr(c) =>
        AssembledNormal(literal + [c], rest);
        assert Chars(literal + [c]) + rest == Chars(literal) + tokens;
      case Key(key) =>
        AssembledNormal("", rest);
        KeyNormal(key, Assembled("", rest));
        assert Chars("") + rest == rest;
        FlushNormal(literal, [Part("", key)] + Assembled("", rest));
    }
  }

  lemma {:induction false} KeyNormal(key: string, rest: seq<Part>)
    requires Normalized(rest) && ValidKey(key)
    ensures Normalized([Part("", key)] + rest) && TokensOf([Part("", key)] + rest) == [Key(key)] + TokensOf(rest)
  {
    assert ([Part("", key)] + rest)[1..] == rest;
  }

  lemma {:induction false} FlushNormal(literal: string, parts: seq<Part>)
    requires Normalized(parts) && (parts != [] ==> parts[0].key != [])
    ensures Normalized(Flush([], literal) + parts)
    ensures TokensOf(Flush([], literal) + parts) == Chars(literal) + TokensOf(parts)
  {
    if literal == [] {
      assert Flush([], literal) + parts == parts;
      assert Chars(literal) + TokensOf(parts) == TokensOf(parts);
    } else {
      assert (Flush([], literal) + parts)[1..] == parts;
    }
  }

  ghost predicate ReadsKeys(reader: LabelReader) {
    forall left, at :: reader(left, at).Bad? || (reader(left, at).Take? && reader(left, at).token.Key?)
  }

  lemma {:induction false} FirstPrinted(reader: LabelReader, left: string, at: nat)
    requires Proper(reader) && ReadsKeys(reader) && left != [] && Tokens(reader, left, at).1.None?
    ensures var printed := PrintTokens(Tokens(reader, left, at).0);
            printed != [] && (printed[0] == left[0] || printed[0] == '$')
  {
  }

  // The last character printed is the last one read, or ends a printed dollar sign or label.
  predicate EndsAs(printed: string, left: string)
    requires left != []
  {
    printed != [] && printed[|printed| - 1] in {left[|left| - 1], '$', '}'}
  }

  lemma {:induction false} LastOfLast(reader: LabelReader, left: string, at: nat)
    requires Proper(reader) && ReadsKeys(reader) && left != []
    requires TurnOf(reader, left, at).Take? && TurnOf(reader, left, at).width == |left|
    ensures EndsAs(PrintTokens([TurnOf(reader, left, at).token]), left)
  {
    var t := TurnOf(reader, left, at).token;
    assert PrintTokens([t]) == PrintToken(t) by { assert PrintTokens([t]) == PrintToken(t) + PrintTokens([t][1..]); }
  }

  lemma {:induction false} LastOfRest(t: Token, tokens: seq<Token>, rest: string, left: string)
    requires rest != [] && left != [] && left[|left| - 1] == rest[|rest| - 1]
    requires EndsAs(PrintTokens(tokens), rest)
    ensures EndsAs(PrintTokens([t] + tokens), left)
  {
    assert ([t] + tokens)[1..] == tokens;
  }

  lemma {:induction false} LastPrinted(reader: LabelReader, left: string, at: nat)
    requires Proper(reader) && ReadsKeys(reader) && left != [] && Tokens(reader, left, at).1.None?
    ensures EndsAs(PrintTokens(Tokens(reader, left, at).0), left)
    decreases |left|
  {
    var turn := TurnOf(reader, left, at);
    var rest := left[turn.width..];
    if rest == [] {
      assert Tokens(reader, rest, at + turn.width) == ([], None);
      assert [turn.token] + [] == [turn.token];
      LastOfLast(reader, left, at);
    } else {
      LastPrinted(reader, rest, at + turn.width);
      LastOfRest(turn.token, Tokens(reader, rest, at + turn.width).0, rest, left);
    }
  }

  lemma {:induction false} DollarPrinted(reader: LabelReader, left: string, at: nat)
    requires Proper(reader) && ReadsKeys(reader) && '$' in left && Tokens(reader, left, at).1.None?
    ensures '$' in PrintTokens(Tokens(reader, left, at).0)
    decreases |left|
  {
    if left[0] != '$' {
      assert left == [left[0]] + left[1..];
      DollarPrinted(reader, left[1..], at + 1);
    } else {
      FirstPrinted(reader, left, at);
    }
  }

  // Every template the parser accepts has a normal form, which it accepts as the same template.
  lemma {:induction false} ParsedIsNormal(text: string)
    requires Parse(text).Template? && '$' in TrimSpace(text)
    ensures Normalized(Parse(text).parts)
    ensures Parse(Print(Parse(text).parts)) == Parse(text)
  {
    var value := TrimSpace(text);
    var tokens := Tokens(LabelTurn, value, 0).0;
    LabelTurnIsProper();
    TokensValid(LabelTurn, value, 0);
    AssembledNormal("", tokens);
    assert Chars("") + tokens == tokens;
    TrimSpaceTrims(text);
    FirstPrinted(LabelTurn, value, 0);
    LastPrinted(LabelTurn, value, 0);
    DollarPrinted(LabelTurn, value, 0);
    TemplateRoundTrip(Parse(text).parts);
  }

  lemma {:induction false} LabelTurnIsProper()
    ensures Proper(LabelTurn) && ReadsKeys(LabelTurn) && ReadsValid(LabelTurn)
  {
    forall left, at | LabelTurn(left, at).Take? ensures ValidKey(LabelTurn(left, at).token.key) {
      LabelIsValid(left, at);
    }
  }

  // A plain label key means the template that refers to it.
  lemma {:induction false} PlainKeyIsReference(key: string)
    requires ValidKey(key) && '$' !in key
    ensures Parse(key) == Parse("${" + (key + "}"))
  {
    TrimSpaceTrims(key);
    var parts := [Part("", key)];
    assert PrintTokens(TokensOf(parts)) == "${" + (key + "}");
    TemplateRoundTrip(parts);
  }

  // ---------- The scan as a loop ----------

  // The result of a scan that has come to `left` with these parts and this buffer.
  function Completed(reader: LabelReader, parts: seq<Part>, literal: string, left: string, at: nat): Parsed
    requires Proper(reader)
  {
    var (tokens, error) := Tokens(reader, left, at);
    if error.Some? then Refused(error.value) else Template(parts + Assembled(literal, tokens))
  }

  lemma {:induction false} CompletedTurn(reader: LabelReader, parts: seq<Part>, literal: string, left: string, at: nat)
    requires Proper(reader)
    ensures var turn := TurnOf(reader, left, at);
            Completed(reader, parts, literal, left, at) ==
            match turn
            case End => Template(parts + Flush([], literal))
            case Bad(error) => Refused(error)
            case Take(Chr(c), width) => Completed(reader, parts, literal + [c], left[width..], at + width)
            case Take(Key(key), width) =>
              Completed(reader, parts + Flush([], literal) + [Part("", key)], "", left[width..], at + width)
  {
    var turn := TurnOf(reader, left, at);
    if turn.Take? && turn.token.Key? {
      var (tokens, error) := Tokens(reader, left[turn.width..], at + turn.width);
      assert ([turn.token] + tokens)[1..] == tokens;
      var assembled := Assembled("", tokens);
      var p := [Part("", turn.token.key)];
      assert parts + (Flush([], literal) + (p + assembled)) == parts + Flush([], literal) + p + assembled;
    } else if turn.Take? {
      var (tokens, error) := Tokens(reader, left[turn.width..], at + turn.width);
      assert ([turn.token] + tokens)[1..] == tokens;
    }
  }

  method FlushLiteral(parts: seq<Part>, literal: string) returns (flushed: seq<Part>)
    ensures flushed == parts + Flush([], literal)
  {
    flushed := if literal != [] then parts + [Part(literal, "")] else parts;
  }

  // One turn at position `i`.
  method TakeTurn(reader: LabelReader, value: string, i: nat) returns (turn: Turn)
    requires Proper(reader) && i < |value|
    ensures turn == TurnOf(reader, value[i..], i)
  {
    if value[i] != '$' {
      return Take(Chr(value[i]), 1);
    }
    if i + 1 < |value| && value[i + 1] == '$' {
      return Take(Chr('$'), 2);
    }
    if i + 1 < |value| && value[i + 1] == '{' {
      assert value[i..][2..] == value[i + 2..];
      return reader(value[i + 2..], i);
    }
    turn := Bad(BareDollar(i));
  }

  method ScanTemplate(reader: LabelReader, value: string) returns (r: Parsed)
    requires Proper(reader)
    ensures r == Completed(reader, [], "", value, 0)
  {
    var parts: seq<Part> := [];
    var literal := "";
    var i := 0;
    while i < |value|
      invariant i <= |value|
      invariant Completed(reader, parts, literal, value[i..], i) == Completed(reader, [], "", value, 0)
    {
      CompletedTurn(reader, parts, literal, value[i..], i);
      var turn := TakeTurn(reader, value, i);
      match turn
      case Bad(error) => return Refused(error);
      case Take(Chr(c), width) =>
        assert value[i..][width..] == value[i + width..];
        literal, i := literal + [c], i + width;
      case Take(Key(key), width) =>
        assert value[i..][width..] == value[i + width..];
        parts := FlushLiteral(parts, literal);
        parts, literal, i := parts + [Part("", key)], "", i + width;
      case End => break;
    }
    CompletedTurn(reader, parts, literal, value[i..], i);
    parts := FlushLiteral(parts, literal);
    r := Template(parts);
  }

  method ParseContainerNameTemplate(text: string) returns (r: Parsed)
    ensures r == Parse(text)
  {
    var value := TrimSpace(text);
    if '$' !in value {
      return Template([Part("", value)]);
    }
    r := ScanTemplate(LabelTurn, value);
    assert [] + Assembled("", Tokens(LabelTurn, value, 0).0) == Assembled("", Tokens(LabelTurn, value, 0).0);
  }

  // ---------- Rendering ----------

  type Labels = map<string, string>

  // A label that is missing reads as empty.
  function LabelValue(labels: Labels, key: string): string {
    if key in labels then TrimSpace(labels[key]) else ""
  }

  // Every label referred to has a value.
  predicate Complete(parts: seq<Part>, labels: Labels) {
    forall p <- parts :: p.key == "" || LabelValue(labels, p.key) != ""
  }

  function Expanded(parts: seq<Part>, labels: Labels): string {
    if parts == [] then ""
    else
      var last := parts[|parts| - 1];
      Expanded(parts[..|parts| - 1], labels) + if last.key == "" then last.literal else LabelValue(labels, last.key)
  }

  // The name of a container, if its labels give one.
  function Rendered(parts: seq<Part>, labels: Labels): Option<string> {
    if Complete(parts, labels) && TrimSpace(Expanded(parts, labels)) != "" then Some(TrimSpace(Expanded(parts, labels)))
    else None
  }

  method Render(parts: seq<Part>, labels: Labels) returns (name: string, ok: bool)
    ensures ok <==> Rendered(parts, labels).Some?
    ensures ok ==> name == Rendered(parts, labels).value
    ensures ok ==> Trimmed(name) && name != ""
  {
    var text := "";
    var i := 0;
    while i < |parts|
      invariant i <= |parts|
      invariant Complete(parts[..i], labels) && text == Expanded(parts[..i], labels)
    {
      var part := parts[i];
      assert parts[..i + 1] == parts[..i] + [part];
      if part.key == "" {
        text := text + part.literal;
      } else {
        var v := LabelValue(labels, part.key);
        if v == "" {
          assert part in parts;
          return "", false;
        }
        text := text + v;
      }
      i := i + 1;
    }
    assert parts[..i] == parts;
    TrimSpaceTrims(text);
    name := TrimSpace(text);
    ok := name != "";
  }

  // Pieces joined from left to right.
  function Joined(pieces: seq<string>): string {
    if pieces == [] then "" else pieces[0] + Joined(pieces[1..])
  }

  lemma {:induction false} JoinedAppend(pieces: seq<string>, last: string)
    ensures Joined(pieces + [last]) == Joined(pieces) + last
  {
    if pieces != [] {
      assert (pieces + [last])[1..] == pieces[1..] + [last];
      JoinedAppend(pieces[1..], last);
    } else {
      assert [last][1..] == [];
    }
  }

  // The characters with the White_Space property of Unicode, by code point.
  lemma {:induction false} SpacesAreUnicode(c: char)
    ensures IsSpace(c) <==>
            var u := c as int;
            || 9 <= u <= 13 || u in {32, 133, 160, 5760} || 8192 <= u <= 8202
            || u in {8232, 8233, 8239, 8287, 12288}
  {
  }

  // What takes the place of each part: its literal, or the label's value without outer spaces,
  // which must not be empty.
  ghost predicate Substitutes(piece: string, part: Part, labels: Labels) {
    if part.key == "" then piece == part.literal
    else part.key in labels && piece == TrimSpace(labels[part.key]) && piece != ""
  }

  ghost predicate Substituted(pieces: seq<string>, parts: seq<Part>, labels: Labels) {
    |pieces| == |parts| && forall i :: 0 <= i < |parts| ==> Substitutes(pieces[i], parts[i], labels)
  }

  lemma {:induction false} SubstitutedExpands(pieces: seq<string>, parts: seq<Part>, labels: Labels)
    requires Substituted(pieces, parts, labels)
    ensures Complete(parts, labels) && Expanded(parts, labels) == Joined(pieces)
  {
    if parts != [] {
      var n := |parts| - 1;
      SubstitutedExpands(pieces[..n], parts[..n], labels);
      assert pieces == pieces[..n] + [pieces[n]];
      JoinedAppend(pieces[..n], pieces[n]);
      forall p <- parts ensures p.key == "" || LabelValue(labels, p.key) != "" {
        var i :| 0 <= i < |parts| && parts[i] == p;
        assert Substitutes(pieces[i], parts[i], labels);
      }
    }
  }

  lemma {:induction false} CompleteSubstitutes(parts: seq<Part>, labels: Labels) returns (pieces: seq<string>)
    requires Complete(parts, labels)
    ensures Substituted(pieces, parts, labels)
  {
    pieces := seq(|parts|, i requires 0 <= i < |parts| =>
                  if parts[i].key == "" then parts[i].literal else LabelValue(labels, parts[i].key));
    forall i | 0 <= i < |parts| ensures Substitutes(pieces[i], parts[i], labels) {
      assert parts[i] in parts;
      TrimSpaceOfNothing();
    }
  }

  lemma {:induction false} TrimSpaceOfNothing()
    ensures TrimSpace("") == ""
  {
  }

  // A container gets a name from its labels exactly if every part has its substitute, and the name
  // is those in order, without outer spaces.
  lemma {:induction false} RenderedMeaning(parts: seq<Part>, labels: Labels, name: string)
    ensures Rendered(parts, labels) == Some(name) <==>
            exists pieces :: Substituted(pieces, parts, labels) && name == TrimSpace(Joined(pieces)) && name != ""
  {
    if Rendered(parts, labels) == Some(name) {
      var pieces := CompleteSubstitutes(parts, labels);
      SubstitutedExpands(pieces, parts, labels);
    }
    if pieces :| Substituted(pieces, parts, labels) && name == TrimSpace(Joined(pieces)) && name != "" {
      SubstitutedExpands(pieces, parts, labels);
    }
  }

  // Writing a template out and reading it back renders the same names and refuses the same
  // containers.
  lemma {:induction false} ReparsedRendersAlike(text: string, labels: Labels)
    requires Parse(text).Template? && '$' in TrimSpace(text)
    ensures var again := Parse(Print(Parse(text).parts));
            again.Template? && Rendered(again.parts, labels) == Rendered(Parse(text).parts, labels)
  {
    ParsedIsNormal(text);
  }

  // Only the labels a template refers to matter.
  lemma {:induction false} OtherLabelsDoNotMatter(parts: seq<Part>, a: Labels, b: Labels)
    requires forall p <- parts :: p.key != "" ==> LabelValue(a, p.key) == LabelValue(b, p.key)
    ensures Rendered(parts, a) == Rendered(parts, b)
  {
    ExpandedAlike(parts, a, b);
  }

  lemma {:induction false} ExpandedAlike(parts: seq<Part>, a: Labels, b: Labels)
    requires forall p <- parts :: p.key != "" ==> LabelValue(a, p.key) == LabelValue(b, p.key)
    ensures Expanded(parts, a) == Expanded(parts, b)
  {
    if parts != [] {
      assert forall p <- parts[..|parts| - 1] :: p in parts;
      ExpandedAlike(parts[..|parts| - 1], a, b);
    }
  }
}
