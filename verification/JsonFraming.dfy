/** Splitting a stream of JSON objects without decoding it. The reader counts braces outside
    strings; the reference is the grammar of JSON text (sections 2 to 7 of RFC 8259) as trees with
    all their whitespace, and a printer for them. Reading undoes printing. */
module JsonFraming {
  import opened Wrappers

  newtype byte = b: int | 0 <= b < 256

  const QUOTE: byte := 0x22
  const COMMA: byte := 0x2c
  const COLON: byte := 0x3a
  const OPEN_BRACKET: byte := 0x5b
  const BACKSLASH: byte := 0x5c
  const CLOSE_BRACKET: byte := 0x5d
  const OPEN_BRACE: byte := 0x7b
  const CLOSE_BRACE: byte := 0x7d

  type Bytes = seq<byte>

  predicate IsSpace(b: byte) {
    b == 0x20 || b == 0x09 || b == 0x0a || b == 0x0d
  }

  // ---------- JSON text ----------

  // A character of a string: unescaped, a two-character escape, or \u with four hex digits.
  datatype Piece = Plain(b: byte) | Escape(code: byte) | Unicode(a: byte, b: byte, c: byte, d: byte)

  // Each value in an array or object carries the whitespace around it, and an empty one the
  // whitespace inside. Numbers and the three literal names are words.
  datatype Json =
    | Word(text: Bytes)
    | String(pieces: seq<Piece>)
    | Array(space: Bytes, items: Items)
    | Object(space: Bytes, members: Members)

  datatype Items = NoItems | Item(before: Bytes, value: Json, after: Bytes, rest: Items)

  datatype Members =
    | NoMembers
    | Member(before: Bytes, name: seq<Piece>, between: Bytes, ahead: Bytes, value: Json, after: Bytes, rest: Members)

  predicate IsHex(b: byte) {
    0x30 <= b <= 0x39 || 0x41 <= b <= 0x46 || 0x61 <= b <= 0x66
  }

  predicate ValidPiece(p: Piece) {
    match p
    case Plain(b) => b >= 0x20 && b != QUOTE && b != BACKSLASH
    case Escape(code) => code in {QUOTE, BACKSLASH, 0x2f, 0x62, 0x66, 0x6e, 0x72, 0x74}
    case Unicode(a, b, c, d) => IsHex(a) && IsHex(b) && IsHex(c) && IsHex(d)
  }

  predicate ValidPieces(pieces: seq<Piece>) {
    forall p <- pieces :: ValidPiece(p)
  }

  // The bytes of numbers, true, false and null.
  predicate IsWordByte(b: byte) {
    0x30 <= b <= 0x39 || 0x61 <= b <= 0x7a || b in {0x2b, 0x2d, 0x2e, 0x45}
  }

  predicate Spaces(w: Bytes) {
    forall b <- w :: IsSpace(b)
  }

  predicate Valid(v: Json) {
    match v
    case Word(text) => text != [] && forall b <- text :: IsWordByte(b)
    case String(pieces) => ValidPieces(pieces)
    case Array(space, items) => Spaces(space) && ValidItems(items)
    case Object(space, members) => Spaces(space) && ValidMembers(members)
  }

  predicate ValidItems(items: Items) {
    items.Item? ==> Spaces(items.before) && Valid(items.value) && Spaces(items.after) && ValidItems(items.rest)
  }

  predicate ValidMembers(ms: Members) {
    ms.Member? ==>
      && Spaces(ms.before) && ValidPieces(ms.name) && Spaces(ms.between)
      && Spaces(ms.ahead) && Valid(ms.value) && Spaces(ms.after) && ValidMembers(ms.rest)
  }

  function PrintPiece(p: Piece): Bytes {
    match p
    case Plain(b) => [b]
    case Escape(code) => [BACKSLASH, code]
    case Unicode(a, b, c, d) => [BACKSLASH, 0x75, a, b, c, d]
  }

  function PrintPieces(pieces: seq<Piece>): Bytes {
    if pieces == [] then [] else PrintPiece(pieces[0]) + PrintPieces(pieces[1..])
  }

  function PrintString(pieces: seq<Piece>): Bytes {
    [QUOTE] + (PrintPieces(pieces) + [QUOTE])
  }

  function Print(v: Json): Bytes {
    match v
    case Word(text) => text
    case String(pieces) => PrintString(pieces)
    case Array(space, items) => [OPEN_BRACKET] + (space + (PrintItems(items) + [CLOSE_BRACKET]))
    case Object(space, members) => [OPEN_BRACE] + (space + (PrintMembers(members) + [CLOSE_BRACE]))
  }

  function PrintItems(items: Items): Bytes {
    match items
    case NoItems => []
    case Item(before, value, after, rest) =>
      before + (Print(value) + (after + ((if rest.NoItems? then [] else [COMMA]) + PrintItems(rest))))
  }

  function PrintMembers(ms: Members): Bytes {
    match ms
    case NoMembers => []
    case Member(before, name, between, ahead, value, after, rest) =>
      before + (PrintString(name) + (between + ([COLON] + (ahead + (Print(value)
      + (after + ((if rest.NoMembers? then [] else [COMMA]) + PrintMembers(rest))))))))
  }

  // ---------- Scanning ----------

  datatype Scan = Scan(depth: int, inString: bool, escape: bool)

  const START := Scan(0, false, false)

  function After(s: Scan, c: byte): Scan {
    if s.inString then
      if s.escape then s.(escape := false)
      else if c == BACKSLASH then s.(escape := true)
      else if c == QUOTE then s.(inString := false)
      else s
    else if c == QUOTE then s.(inString := true)
    else if c == OPEN_BRACE then s.(depth := s.depth + 1)
    else if c == CLOSE_BRACE then s.(depth := s.depth - 1)
    else s
  }

  // The byte that ends the object.
  predicate Closes(s: Scan, c: byte) {
    !s.inString && c == CLOSE_BRACE && s.depth == 1
  }

  // Scanning these bytes does not end the object and leads from s to t.
  predicate Crosses(s: Scan, bytes: Bytes, t: Scan)
    decreases bytes
  {
    if bytes == [] then s == t
    else !Closes(s, bytes[0]) && Crosses(After(s, bytes[0]), bytes[1..], t)
  }

  lemma {:induction false} CrossesConcat(s: Scan, a: Bytes, m: Scan, b: Bytes, t: Scan)
    requires Crosses(s, a, m) && Crosses(m, b, t)
    ensures Crosses(s, a + b, t)
    decreases a
  {
    if a == [] {
      assert a + b == b;
    } else {
      CrossesConcat(After(s, a[0]), a[1..], m, b, t);
      assert (a + b)[1..] == a[1..] + b;
    }
  }

  function Inside(depth: int): Scan { Scan(depth, false, false) }
  function Quoted(depth: int): Scan { Scan(depth, true, false) }

  // Bytes that mean nothing outside a string.
  predicate Inert(bytes: Bytes) {
    forall b <- bytes :: b != QUOTE && b != OPEN_BRACE && b != CLOSE_BRACE
  }

  lemma {:induction false} InertCrosses(depth: int, bytes: Bytes)
    requires Inert(bytes)
    ensures Crosses(Inside(depth), bytes, Inside(depth))
  {
    if bytes != [] {
      assert bytes[0] in bytes && forall b <- bytes[1..] :: b in bytes;
      InertCrosses(depth, bytes[1..]);
    }
  }

  lemma {:induction false} PieceCrosses(depth: int, p: Piece)
    requires ValidPiece(p)
    ensures Crosses(Quoted(depth), PrintPiece(p), Quoted(depth))
  {
    var q, text := Quoted(depth), PrintPiece(p);
    match p
    case Plain(_) =>
    case Escape(_) => assert text[1..][1..] == [];
    case Unicode(a, b, c, d) => {
      assert After(After(q, text[0]), text[1]) == q;
      assert text[1..][1..] == [a, b, c, d];
      assert [a, b, c, d][1..] == [b, c, d] && [b, c, d][1..] == [c, d] && [c, d][1..] == [d] && [d][1..] == [];
      assert Crosses(q, [c, d], q);
      assert Crosses(q, [a, b, c, d], q);
    }
  }

  lemma {:induction false} PiecesCross(depth: int, pieces: seq<Piece>)
    requires ValidPieces(pieces)
    ensures Crosses(Quoted(depth), PrintPieces(pieces), Quoted(depth))
  {
    if pieces != [] {
      PieceCrosses(depth, pieces[0]);
      assert forall p <- pieces[1..] :: p in pieces;
      PiecesCross(depth, pieces[1..]);
      CrossesConcat(Quoted(depth), PrintPiece(pieces[0]), Quoted(depth), PrintPieces(pieces[1..]), Quoted(depth));
    }
  }

  lemma {:induction false} StringCrosses(depth: int, pieces: seq<Piece>)
    requires ValidPieces(pieces)
    ensures Crosses(Inside(depth), PrintString(pieces), Inside(depth))
  {
    PiecesCross(depth, pieces);
    assert Crosses(Quoted(depth), [QUOTE], Inside(depth));
    CrossesConcat(Quoted(depth), PrintPieces(pieces), Quoted(depth), [QUOTE], Inside(depth));
    assert Crosses(Inside(depth), [QUOTE], Quoted(depth));
    CrossesConcat(Inside(depth), [QUOTE], Quoted(depth), PrintPieces(pieces) + [QUOTE], Inside(depth));
  }

  // Two stretches that each return to depth d, one after the other.
  lemma {:induction false} Joined(d: int, a: Bytes, b: Bytes)
    requires Crosses(Inside(d), a, Inside(d)) && Crosses(Inside(d), b, Inside(d))
    ensures Crosses(Inside(d), a + b, Inside(d))
  {
    CrossesConcat(Inside(d), a, Inside(d), b, Inside(d));
  }

  // A value inside an object never ends it, whatever braces it holds.
  lemma {:induction false} ValueCrosses(d: int, v: Json)
    requires d >= 1 && Valid(v)
    ensures Crosses(Inside(d), Print(v), Inside(d))
    decreases v
  {
    match v
    case Word(text) => InertCrosses(d, text);
    case String(pieces) => StringCrosses(d, pieces);
    case Array(space, items) => ArrayCrosses(d, space, items);
    case Object(space, members) =>
      BodyCrosses(d + 1, space, members);
      ObjectCrosses(d, space, members);
  }

  lemma {:induction false} ArrayCrosses(d: int, space: Bytes, items: Items)
    requires d >= 1 && Spaces(space) && ValidItems(items)
    ensures Crosses(Inside(d), Print(Array(space, items)), Inside(d))
    decreases items, 1
  {
    ItemsCross(d, items);
    InertCrosses(d, [CLOSE_BRACKET]);
    Joined(d, PrintItems(items), [CLOSE_BRACKET]);
    InertCrosses(d, space);
    Joined(d, space, PrintItems(items) + [CLOSE_BRACKET]);
    InertCrosses(d, [OPEN_BRACKET]);
    Joined(d, [OPEN_BRACKET], space + (PrintItems(items) + [CLOSE_BRACKET]));
  }

  lemma {:induction false} ObjectCrosses(d: int, space: Bytes, members: Members)
    requires d >= 1 && Crosses(Inside(d + 1), space + PrintMembers(members), Inside(d + 1))
    ensures Crosses(Inside(d), Print(Object(space, members)), Inside(d))
  {
    var body := space + PrintMembers(members);
    assert Crosses(Inside(d), [OPEN_BRACE], Inside(d + 1));
    assert Crosses(Inside(d + 1), [CLOSE_BRACE], Inside(d));
    CrossesConcat(Inside(d + 1), body, Inside(d + 1), [CLOSE_BRACE], Inside(d));
    CrossesConcat(Inside(d), [OPEN_BRACE], Inside(d + 1), body + [CLOSE_BRACE], Inside(d));
    assert Print(Object(space, members)) == [OPEN_BRACE] + (body + [CLOSE_BRACE]);
  }

  lemma {:induction false} BodyCrosses(d: int, space: Bytes, members: Members)
    requires d >= 1 && Spaces(space) && ValidMembers(members)
    ensures Crosses(Inside(d), space + PrintMembers(members), Inside(d))
    decreases members, 1
  {
    InertCrosses(d, space);
    MembersCross(d, members);
    Joined(d, space, PrintMembers(members));
  }

  lemma {:induction false} ItemsCross(d: int, items: Items)
    requires d >= 1 && ValidItems(items)
    ensures Crosses(Inside(d), PrintItems(items), Inside(d))
    decreases items, 0
  {
    match items
    case NoItems =>
    case Item(before, value, after, rest) =>
      var separator := if rest.NoItems? then [] else [COMMA];
      ItemsCross(d, rest);
      InertCrosses(d, separator);
      Joined(d, separator, PrintItems(rest));
      InertCrosses(d, after);
      Joined(d, after, separator + PrintItems(rest));
      ValueCrosses(d, value);
      Joined(d, Print(value), after + (separator + PrintItems(rest)));
      InertCrosses(d, before);
      Joined(d, before, Print(value) + (after + (separator + PrintItems(rest))));
  }

  lemma {:induction false} MembersCross(d: int, ms: Members)
    requires d >= 1 && ValidMembers(ms)
    ensures Crosses(Inside(d), PrintMembers(ms), Inside(d))
    decreases ms, 0
  {
    match ms
    case NoMembers =>
    case Member(before, name, between, ahead, value, after, rest) =>
      var separator := if rest.NoMembers? then [] else [COMMA];
      MembersCross(d, rest);
      InertCrosses(d, separator);
      var t := separator + PrintMembers(rest);
      Joined(d, separator, PrintMembers(rest));
      InertCrosses(d, after);
      Joined(d, after, t);
      ValueCrosses(d, value);
      Joined(d, Print(value), after + t);
      InertCrosses(d, ahead);
      Joined(d, ahead, Print(value) + (after + t));
      InertCrosses(d, [COLON]);
      Joined(d, [COLON], ahead + (Print(value) + (after + t)));
      InertCrosses(d, between);
      Joined(d, between, [COLON] + (ahead + (Print(value) + (after + t))));
      StringCrosses(d, name);
      Joined(d, PrintString(name), between + ([COLON] + (ahead + (Print(value) + (after + t)))));
      InertCrosses(d, before);
      Joined(d, before, PrintString(name) + (between + ([COLON] + (ahead + (Print(value) + (after + t))))));
  }

  // ---------- Reading ----------

  // A stream ends in EOF or in some other failure of the reader below.
  datatype ReadError = EOF | Broken | UnexpectedEOF | InvalidCharacter(b: byte)

  datatype Outcome = Framed(text: Bytes, rest: Bytes) | EndOfArray(rest: Bytes) | Failed(error: ReadError, rest: Bytes)

  // The rest of an object, of which `text` was read.
  function ReadObject(s: Scan, text: Bytes, input: Bytes, end: ReadError): (r: Outcome)
    ensures !r.EndOfArray?
    ensures r.Framed? ==> |r.rest| < |input|
    decreases input
  {
    if input == [] then Failed(if end.EOF? then UnexpectedEOF else end, [])
    else if Closes(s, input[0]) then Framed(text + [input[0]], input[1..])
    else ReadObject(After(s, input[0]), text + [input[0]], input[1..], end)
  }

  predicate IsSeparator(b: byte) {
    IsSpace(b) || b == OPEN_BRACKET || b == COMMA
  }

  function NextObject(input: Bytes, end: ReadError): (r: Outcome)
    ensures r.Framed? || r.EndOfArray? ==> |r.rest| < |input|
  {
    if input == [] then Failed(end, [])
    else if IsSeparator(input[0]) then NextObject(input[1..], end)
    else if input[0] == CLOSE_BRACKET then EndOfArray(input[1..])
    else if input[0] == OPEN_BRACE then ReadObject(START, [], input, end)
    else Failed(InvalidCharacter(input[0]), input)
  }

  // All objects up to the end, and how the stream ended.
  function Frames(input: Bytes, end: ReadError): (seq<Bytes>, Outcome)
    decreases |input|
  {
    var r := NextObject(input, end);
    if r.Framed? then
      var (texts, last) := Frames(r.rest, end);
      ([r.text] + texts, last)
    else ([], r)
  }

  lemma {:induction false} ReadToClose(s: Scan, text: Bytes, inner: Bytes, t: Scan, c: byte, rest: Bytes, end: ReadError)
    requires Crosses(s, inner, t) && Closes(t, c)
    ensures ReadObject(s, text, inner + ([c] + rest), end) == Framed(text + (inner + [c]), rest)
    decreases inner
  {
    var input := inner + ([c] + rest);
    if inner == [] {
      assert input == [c] + rest && inner + [c] == [c];
      assert input[1..] == rest;
    } else {
      assert input[1..] == inner[1..] + ([c] + rest);
      ReadToClose(After(s, inner[0]), text + [inner[0]], inner[1..], t, c, rest, end);
      assert (text + [inner[0]]) + (inner[1..] + [c]) == text + (inner + [c]);
    }
  }

  lemma {:induction false} ReadCutShort(s: Scan, text: Bytes, inner: Bytes, t: Scan, k: nat, end: ReadError)
    requires Crosses(s, inner, t) && k <= |inner|
    ensures ReadObject(s, text, inner[..k], end) == Failed(if end.EOF? then UnexpectedEOF else end, [])
    decreases inner
  {
    if k > 0 {
      assert inner[..k][1..] == inner[1..][..k - 1];
      ReadCutShort(After(s, inner[0]), text + [inner[0]], inner[1..], t, k - 1, end);
    }
  }

  lemma {:induction false} SeparatorsSkipped(separators: Bytes, rest: Bytes, end: ReadError)
    requires forall b <- separators :: IsSeparator(b)
    ensures NextObject(separators + rest, end) == NextObject(rest, end)
  {
    if separators == [] {
      assert separators + rest == rest;
    } else {
      assert separators[0] in separators && forall b <- separators[1..] :: b in separators;
      SeparatorsSkipped(separators[1..], rest, end);
      assert (separators + rest)[1..] == separators[1..] + rest;
    }
  }

  // What comes before an object's closing brace.
  function Front(v: Json): Bytes
    requires v.Object?
  {
    [OPEN_BRACE] + (v.space + PrintMembers(v.members))
  }

  lemma {:induction false} FrontCrosses(v: Json)
    requires v.Object? && Valid(v)
    ensures Print(v) == Front(v) + [CLOSE_BRACE]
    ensures Crosses(START, Front(v), Inside(1))
  {
    BodyCrosses(1, v.space, v.members);
    assert Crosses(START, [OPEN_BRACE], Inside(1));
    CrossesConcat(START, [OPEN_BRACE], Inside(1), v.space + PrintMembers(v.members), Inside(1));
    assert v.space + (PrintMembers(v.members) + [CLOSE_BRACE]) == (v.space + PrintMembers(v.members)) + [CLOSE_BRACE];
  }

  // An object is framed exactly, and nothing after its closing brace is consumed.
  lemma {:induction false} ObjectIsFramed(v: Json, separators: Bytes, rest: Bytes, end: ReadError)
    requires v.Object? && Valid(v) && forall b <- separators :: IsSeparator(b)
    ensures NextObject(separators + (Print(v) + rest), end) == Framed(Print(v), rest)
  {
    SeparatorsSkipped(separators, Print(v) + rest, end);
    FrontCrosses(v);
    ReadToClose(START, [], Front(v), Inside(1), CLOSE_BRACE, rest, end);
    assert Print(v) + rest == Front(v) + ([CLOSE_BRACE] + rest);
    assert [] + (Front(v) + [CLOSE_BRACE]) == Print(v);
  }

  // An object cut short anywhere is reported as such.
  lemma {:induction false} TruncatedObject(v: Json, separators: Bytes, k: nat, end: ReadError)
    requires v.Object? && Valid(v) && 0 < k < |Print(v)|
    requires forall b <- separators :: IsSeparator(b)
    ensures NextObject(separators + Print(v)[..k], end) == Failed(if end.EOF? then UnexpectedEOF else end, [])
  {
    SeparatorsSkipped(separators, Print(v)[..k], end);
    FrontCrosses(v);
    ReadCutShort(START, [], Front(v), Inside(1), k, end);
    assert Print(v)[..k] == Front(v)[..k];
  }

  // A stream of objects with any separators ahead of each.
  datatype Chunk = Chunk(separators: Bytes, value: Json)

  predicate ValidChunk(c: Chunk) {
    c.value.Object? && Valid(c.value) && forall b <- c.separators :: IsSeparator(b)
  }

  function PrintStream(chunks: seq<Chunk>): Bytes {
    if chunks == [] then []
    else chunks[0].separators + (Print(chunks[0].value) + PrintStream(chunks[1..]))
  }

  function Texts(chunks: seq<Chunk>): seq<Bytes> {
    if chunks == [] then [] else [Print(chunks[0].value)] + Texts(chunks[1..])
  }

  lemma {:induction false} FrameFirst(c: Chunk, later: Bytes, end: ReadError)
    requires ValidChunk(c)
    ensures Frames(c.separators + (Print(c.value) + later), end) ==
            ([Print(c.value)] + Frames(later, end).0, Frames(later, end).1)
  {
    ObjectIsFramed(c.value, c.separators, later, end);
  }

  lemma {:induction false} StreamRegroups(chunks: seq<Chunk>, tail: Bytes)
    requires chunks != []
    ensures PrintStream(chunks) + tail == chunks[0].separators + (Print(chunks[0].value) + (PrintStream(chunks[1..]) + tail))
  {
  }

  lemma {:induction false} TextsRegroup(chunks: seq<Chunk>, texts: seq<Bytes>)
    requires chunks != []
    ensures [Print(chunks[0].value)] + (Texts(chunks[1..]) + texts) == Texts(chunks) + texts
  {
  }

  // Reading undoes printing: exactly the printed texts, in order, and then whatever the tail is.
  lemma {:induction false} FramingRoundTrip(chunks: seq<Chunk>, tail: Bytes, end: ReadError)
    requires forall c <- chunks :: ValidChunk(c)
    ensures Frames(PrintStream(chunks) + tail, end) == (Texts(chunks) + Frames(tail, end).0, Frames(tail, end).1)
  {
    var (texts, last) := Frames(tail, end);
    if chunks == [] {
      assert PrintStream(chunks) + tail == tail;
      assert Texts(chunks) + texts == texts;
    } else {
      assert chunks[0] in chunks && forall d <- chunks[1..] :: d in chunks;
      FramingRoundTrip(chunks[1..], tail, end);
      FrameFirst(chunks[0], PrintStream(chunks[1..]) + tail, end);
      StreamRegroups(chunks, tail);
      TextsRegroup(chunks, texts);
    }
  }

  // A tail without objects adds none.
  lemma {:induction false} StreamWithTail(chunks: seq<Chunk>, tail: Bytes, end: ReadError)
    requires (forall c <- chunks :: ValidChunk(c)) && !NextObject(tail, end).Framed?
    ensures Frames(PrintStream(chunks) + tail, end) == (Texts(chunks), NextObject(tail, end))
  {
    FramingRoundTrip(chunks, tail, end);
    assert Texts(chunks) + [] == Texts(chunks);
  }

  // The three ways a stream ends: silently, with a closing bracket, or inside an object.
  lemma {:induction false} StreamEndsSilently(chunks: seq<Chunk>, separators: Bytes, end: ReadError)
    requires (forall c <- chunks :: ValidChunk(c)) && forall b <- separators :: IsSeparator(b)
    ensures Frames(PrintStream(chunks) + separators, end) == (Texts(chunks), Failed(end, []))
  {
    SeparatorsSkipped(separators, [], end);
    assert separators + [] == separators;
    StreamWithTail(chunks, separators, end);
  }

  lemma {:induction false} StreamEndsWithBracket(chunks: seq<Chunk>, separators: Bytes, more: Bytes, end: ReadError)
    requires (forall c <- chunks :: ValidChunk(c)) && forall b <- separators :: IsSeparator(b)
    ensures Frames(PrintStream(chunks) + (separators + ([CLOSE_BRACKET] + more)), end) == (Texts(chunks), EndOfArray(more))
  {
    var tail := [CLOSE_BRACKET] + more;
    assert tail[1..] == more;
    SeparatorsSkipped(separators, tail, end);
    StreamWithTail(chunks, separators + tail, end);
  }

  lemma {:induction false} StreamEndsInsideObject(chunks: seq<Chunk>, last: Chunk, k: nat, end: ReadError)
    requires (forall c <- chunks :: ValidChunk(c)) && ValidChunk(last) && 0 < k < |Print(last.value)|
    ensures Frames(PrintStream(chunks) + (last.separators + Print(last.value)[..k]), end) ==
            (Texts(chunks), Failed(if end.EOF? then UnexpectedEOF else end, []))
  {
    TruncatedObject(last.value, last.separators, k, end);
    StreamWithTail(chunks, last.separators + Print(last.value)[..k], end);
  }

  // Anything else between objects is an error that names the byte and leaves it unread.
  lemma {:induction false} StreamEndsAtInvalidByte(chunks: seq<Chunk>, separators: Bytes, b: byte, more: Bytes, end: ReadError)
    requires forall c <- chunks :: ValidChunk(c)
    requires forall s <- separators :: IsSeparator(s)
    requires !IsSeparator(b) && b != OPEN_BRACE && b != CLOSE_BRACKET
    ensures Frames(PrintStream(chunks) + (separators + ([b] + more)), end) ==
            (Texts(chunks), Failed(InvalidCharacter(b), [b] + more))
  {
    SeparatorsSkipped(separators, [b] + more, end);
    StreamWithTail(chunks, separators + ([b] + more), end);
  }

  // ---------- The reader ----------

  class ByteReader {
    const input: Bytes
    const end: ReadError
    var pos: nat

    ghost predicate Valid()
      reads this
    {
      pos <= |input| && (end.EOF? || end.Broken?)
    }

    ghost function Rest(): Bytes
      reads this
      requires Valid()
    {
      input[pos..]
    }

    constructor (input: Bytes, end: ReadError)
      requires end.EOF? || end.Broken?
      ensures Valid() && Rest() == input && this.end == end
    {
      this.input, this.end, pos := input, end, 0;
    }

    method ReadByte() returns (b: Option<byte>)
      requires Valid()
      modifies this
      ensures Valid()
      ensures old(Rest()) == (if b.Some? then [b.value] else []) + Rest()
      ensures b.None? <==> old(Rest()) == []
    {
      if pos == |input| {
        return None;
      }
      b := Some(input[pos]);
      pos := pos + 1;
    }

    // Skips whitespace and looks at the next byte; None is the end of the stream.
    method PeekNonSpace() returns (b: Option<byte>)
      requires Valid()
      modifies this
      ensures Valid() && NextObject(Rest(), end) == NextObject(old(Rest()), end)
      ensures b == if Rest() == [] then None else Some(Rest()[0])
      ensures pos >= old(pos) && forall k :: old(pos) <= k < pos ==> IsSpace(input[k])
      ensures b.Some? ==> !IsSpace(b.value)
    {
      while pos < |input|
        invariant Valid() && pos >= old(pos) && forall k :: old(pos) <= k < pos ==> IsSpace(input[k])
        invariant Valid() && NextObject(Rest(), end) == NextObject(old(Rest()), end)
      {
        if !IsSpace(input[pos]) {
          return Some(input[pos]);
        }
        assert Rest()[1..] == input[pos + 1..];
        pos := pos + 1;
      }
      b := None;
    }

    method ReadJSONObject() returns (r: Outcome)
      requires Valid()
      modifies this
      ensures Valid() && r == ReadObject(START, [], old(Rest()), end) && Rest() == r.rest
    {
      var buf: Bytes := [];
      var depth, inString, escape := 0, false, false;
      while true
        invariant Valid()
        invariant ReadObject(Scan(depth, inString, escape), buf, Rest(), end) == ReadObject(START, [], old(Rest()), end)
        decreases |input| - pos
      {
        ghost var rest := Rest();
        var c := ReadByte();
        if c.None? {
          return Failed(if end.EOF? then UnexpectedEOF else end, []);
        }
        assert rest[0] == c.value && rest[1..] == Rest();
        buf := buf + [c.value];
        if inString {
          if escape {
            escape := false;
          } else if c.value == BACKSLASH {
            escape := true;
          } else if c.value == QUOTE {
            inString := false;
          }
        } else if c.value == QUOTE {
          inString := true;
        } else if c.value == OPEN_BRACE {
          depth := depth + 1;
        } else if c.value == CLOSE_BRACE {
          depth := depth - 1;
          if depth == 0 {
            return Framed(buf, input[pos..]);
          }
        }
      }
    }

    method NextIntelJSONObject() returns (r: Outcome)
      requires Valid()
      modifies this
      ensures Valid() && r == NextObject(old(Rest()), end) && Rest() == r.rest
    {
      while true
        invariant Valid() && NextObject(Rest(), end) == NextObject(old(Rest()), end)
        decreases |input| - pos
      {
        var b := PeekNonSpace();
        if b.None? {
          return Failed(end, []);
        }
        if b.value == OPEN_BRACKET || b.value == COMMA {
          var _ := ReadByte();
        } else if b.value == CLOSE_BRACKET {
          var _ := ReadByte();
          return EndOfArray(input[pos..]);
        } else if b.value == OPEN_BRACE {
          r := ReadJSONObject();
          return;
        } else {
          return Failed(InvalidCharacter(b.value), input[pos..]);
        }
      }
    }
  }
}
