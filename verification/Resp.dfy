/**
 RESP2 as src/shared/valkey-client.ts reads and writes it: the incremental
 reply parser, the response buffer step and the command encoder.

 A Dafny `char` stands for one UTF-16 unit of a JavaScript string. Lengths on
 the wire count UTF-8 bytes; the parser slices characters. Both are kept, so
 that the exact inputs on which they agree can be stated.
 */
module Resp {
  import opened Wrappers

  // ---- data ---------------------------------------------------------------

  /** A reply as the server writes it (RESP2: simple strings, integers, bulk strings, arrays). */
  datatype Reply =
    | Simple(text: string)
    | Integer(n: int)
    | Bulk(text: string)
    | NilBulk
    | NilArray
    | Array(items: seq<Reply>)

  /** What the client hands back. `OtherNumber` is a JavaScript number that is no integer. */
  datatype Value =
    | Text(s: string)
    | Number(n: int)
    | OtherNumber(raw: string)
    | Null
    | List(values: seq<Value>)

  datatype Result = Parsed(value: Value, next: nat) | Incomplete | Malformed

  /** A top-level answer: a reply, or an error line, which only the buffer step understands. */
  datatype Answer = Answered(reply: Reply) | Refused(line: string)

  datatype Outcome = Resolved(value: Value) | Rejected(message: string)

  // ---- numbers ------------------------------------------------------------

  /** The largest integer below which a JavaScript number is exact. */
  const MAX_SAFE_INTEGER := 9007199254740991

  function DigitChar(d: nat): (c: char)
    requires d < 10
    ensures '0' <= c <= '9' && c as int - '0' as int == d
  {
    ('0' as int + d) as char
  }

  function Digits(n: nat): string {
    if n < 10 then [DigitChar(n)] else Digits(n / 10) + [DigitChar(n % 10)]
  }

  /** String(n) for an integer. */
  function Decimal(n: int): string {
    if n < 0 then "-" + Digits(-n) else Digits(n)
  }

  function ToNat(s: string): Option<int> {
    if s == "" then Some(0)
    else
      var c := s[|s| - 1];
      match ToNat(s[..|s| - 1])
      case Some(m) => if '0' <= c <= '9' then Some(10 * m + (c as int - '0' as int)) else None
      case None => None
  }

  /** Number(s) where it is an integer written in decimal; None for every other text. */
  function ToInteger(s: string): Option<int> {
    if s == "" then Some(0)
    else if s[0] == '-' || s[0] == '+' then
      if |s| == 1 then None
      else match ToNat(s[1..])
           case Some(m) => Some(if s[0] == '-' then -m else m)
           case None => None
    else match ToNat(s)
         case Some(m) => Some(m)
         case None => None
  }

  predicate AllDigits(s: string) {
    forall i :: 0 <= i < |s| ==> '0' <= s[i] <= '9'
  }

  lemma {:induction false} DigitsParse(n: nat)
    ensures Digits(n) != "" && AllDigits(Digits(n)) && ToNat(Digits(n)) == Some(n)
  {
    var d := Digits(n);
    if n < 10 {
      assert d[..0] == "";
    } else {
      DigitsParse(n / 10);
      assert d[..|d| - 1] == Digits(n / 10);
    }
  }

  /** Printing an integer and reading it back is the identity, and prints no line terminator. */
  lemma DecimalRoundTrip(n: int)
    ensures ToInteger(Decimal(n)) == Some(n)
    ensures '\r' !in Decimal(n)
  {
    DigitsParse(if n < 0 then -n else n);
    var d := Digits(if n < 0 then -n else n);
    assert d[0] != '-' && d[0] != '+';
    hide Digits, ToNat;
    if n < 0 {
      assert Decimal(n)[1..] == Digits(-n);
    }
  }

  // ---- UTF-8 lengths ------------------------------------------------------

  function Utf8Size(c: char): nat {
    if c as int < 0x80 then 1 else if c as int < 0x800 then 2 else 3
  }

  /** Buffer.byteLength(s, 'utf8') for text without surrogate pairs. */
  function ByteLength(s: string): nat {
    if s == "" then 0 else Utf8Size(s[0]) + ByteLength(s[1..])
  }

  /** The UTF-8 bytes of a character below 0x10000 (section 3 of RFC 3629). */
  function Utf8(c: char): seq<nat> {
    var n := c as int;
    if n < 0x80 then [n]
    else if n < 0x800 then [0xC0 + n / 64, 0x80 + n % 64]
    else [0xE0 + n / 4096, 0x80 + n / 64 % 64, 0x80 + n % 64]
  }

  function Utf8Text(s: string): seq<nat> {
    if s == "" then [] else Utf8(s[0]) + Utf8Text(s[1..])
  }

  /** What a reader of UTF-8 makes of the bytes: the lead byte says how many belong to a character. */
  function CodePoints(b: seq<nat>): seq<int> {
    if b == [] then []
    else if b[0] < 0x80 then [b[0]] + CodePoints(b[1..])
    else if b[0] < 0xE0 && |b| >= 2 then [(b[0] - 0xC0) * 64 + (b[1] - 0x80)] + CodePoints(b[2..])
    else if |b| >= 3 then [(b[0] - 0xE0) * 4096 + (b[1] - 0x80) * 64 + (b[2] - 0x80)] + CodePoints(b[3..])
    else []
  }

  /** ByteLength counts the bytes of an encoding that every reader of UTF-8 turns back into the text. */
  lemma {:induction false} ByteLengthIsUtf8(s: string)
    requires forall i :: 0 <= i < |s| ==> s[i] as int < 0x10000
    ensures |Utf8Text(s)| == ByteLength(s)
    ensures |CodePoints(Utf8Text(s))| == |s|
    ensures forall i :: 0 <= i < |s| ==> CodePoints(Utf8Text(s))[i] == s[i] as int
  {
    if s != "" {
      var bytes, rest := Utf8(s[0]), Utf8Text(s[1..]);
      ByteLengthIsUtf8(s[1..]);
      var n := s[0] as int;
      assert n == n / 64 * 64 + n % 64 && n / 64 == n / 4096 * 64 + n / 64 % 64;
      assert (bytes + rest)[|bytes|..] == rest;
      assert n >= 0x800 ==> 0xE0 <= bytes[0];
      assert CodePoints(bytes + rest) == [n] + CodePoints(rest);
    }
  }

  predicate OneByteText(s: string) {
    forall i :: 0 <= i < |s| ==> s[i] as int < 0x80
  }

  /** Bytes and characters agree exactly on one-byte text, and otherwise there are more bytes. */
  lemma {:induction false} ByteLengthIsLength(s: string)
    ensures |s| <= ByteLength(s)
    ensures ByteLength(s) == |s| <==> OneByteText(s)
  {
    if s != "" {
      ByteLengthIsLength(s[1..]);
      assert OneByteText(s) <==> s[0] as int < 0x80 && OneByteText(s[1..]) by {
        if s[0] as int < 0x80 && OneByteText(s[1..]) {
          forall i | 0 <= i < |s| ensures s[i] as int < 0x80 {
            if i > 0 { assert s[i] == s[1..][i - 1]; }
          }
        }
      }
    }
  }

  // ---- rendering: what a well-behaved server writes ------------------------

  function Line(tag: char, body: string): string {
    [tag] + body + "\r\n"
  }

  function Render(r: Reply): string {
    match r
    case Simple(t) => Line('+', t)
    case Integer(n) => Line(':', Decimal(n))
    case Bulk(t) => Line('$', Decimal(ByteLength(t))) + t + "\r\n"
    case NilBulk => Line('$', "-1")
    case NilArray => Line('*', "-1")
    case Array(items) => Line('*', Decimal(|items|)) + RenderAll(items)
  }

  function RenderAll(items: seq<Reply>): string {
    if items == [] then "" else Render(items[0]) + RenderAll(items[1..])
  }

  function RenderAnswer(a: Answer): string {
    match a
    case Answered(r) => Render(r)
    case Refused(line) => Line('-', line)
  }

  /** The value a reply stands for. */
  function ValueOf(r: Reply): Value {
    match r
    case Simple(t) => Text(t)
    case Integer(n) => Number(n)
    case Bulk(t) => Text(t)
    case NilBulk => Null
    case NilArray => Null
    case Array(items) => List(ValuesOf(items))
  }

  function ValuesOf(items: seq<Reply>): (vs: seq<Value>)
    ensures |vs| == |items|
  {
    if items == [] then [] else [ValueOf(items[0])] + ValuesOf(items[1..])
  }

  /** What the caller of the command is told: a top-level nil arrives as the empty string. */
  function OutcomeOf(a: Answer): Outcome {
    match a
    case Answered(r) => Resolved(if ValueOf(r) == Null then Text("") else ValueOf(r))
    case Refused(line) => Rejected(line)
  }

  /** Simple strings hold no CR or LF; integers are exact in a JavaScript number. */
  predicate WellFormed(r: Reply) {
    match r
    case Simple(t) => '\r' !in t && '\n' !in t
    case Integer(n) => -MAX_SAFE_INTEGER <= n <= MAX_SAFE_INTEGER
    case Array(items) => forall i :: 0 <= i < |items| ==> WellFormed(items[i])
    case _ => true
  }

  /** Every bulk string in the reply is one-byte text. */
  predicate OneByte(r: Reply) {
    match r
    case Bulk(t) => OneByteText(t)
    case Array(items) => forall i :: 0 <= i < |items| ==> OneByte(items[i])
    case _ => true
  }

  /** Multi-byte text stands at most in the reply's very last bulk string. */
  predicate WideOnlyAtEnd(r: Reply) {
    match r
    case Array(items) =>
      && (forall i :: 0 <= i < |items| - 1 ==> OneByte(items[i]))
      && (items != [] ==> WideOnlyAtEnd(items[|items| - 1]))
    case _ => true
  }

  lemma {:induction false} OneByteIsEnough(r: Reply)
    requires OneByte(r)
    ensures WideOnlyAtEnd(r)
  {
    if r.Array? && r.items != [] { OneByteIsEnough(r.items[|r.items| - 1]); }
  }

  predicate GoodAnswer(a: Answer) {
    match a
    case Answered(r) => WellFormed(r) && OneByte(r)
    case Refused(line) => '\r' !in line && '\n' !in line
  }

  // ---- the parser ---------------------------------------------------------

  predicate CrlfAt(b: string, i: int) {
    0 <= i && i + 1 < |b| && b[i] == '\r' && b[i + 1] == '\n'
  }

  /** buffer.indexOf('\r\n', from) */
  function LineEnd(b: string, from: nat): (r: Option<nat>)
    ensures r.Some? ==> from <= r.value && CrlfAt(b, r.value) &&
                        forall i :: from <= i < r.value ==> !CrlfAt(b, i)
    ensures r.None? ==> forall i :: from <= i ==> !CrlfAt(b, i)
    decreases |b| - from
  {
    if from + 1 >= |b| then None
    else if CrlfAt(b, from) then Some(from)
    else LineEnd(b, from + 1)
  }

  /** The reply starting at `start`, as a function of the buffer. */
  function Parse(b: string, start: nat): (r: Result)
    ensures r.Parsed? ==> start < r.next <= |b|
    decreases |b| - start, 0
  {
    if start >= |b| then Incomplete
    else if b[start] !in "+:$*" then Malformed
    else match LineEnd(b, start)
         case None => Incomplete
         case Some(e) => ParseAfterLine(b, b[start], b[start + 1..e], e + 2)
  }

  /** What the first line announces: `raw` is its text, `next` where the rest begins. */
  function ParseAfterLine(b: string, prefix: char, raw: string, next: nat): (r: Result)
    requires next <= |b|
    ensures r.Parsed? ==> next <= r.next <= |b|
    decreases |b| - next, 2
  {
    if prefix == '+' then Parsed(Text(raw), next)
    else if prefix == ':' then
      Parsed(match ToInteger(raw) case Some(n) => Number(n) case None => OtherNumber(raw), next)
    else match ToInteger(raw)
         case None => Malformed
         case Some(n) =>
           if n == -1 then Parsed(Null, next)
           else if prefix == '*' then ParseItems(b, next, if n < 0 then 0 else n)
           else if n < -1 then Malformed
           else if |b| < next + n + 2 then Incomplete
           else Parsed(Text(b[next..next + n]), next + n + 2)
  }

  /** `n` replies in a row, as one list. */
  function ParseItems(b: string, cursor: nat, n: nat): (r: Result)
    requires cursor <= |b|
    ensures r.Parsed? ==> cursor <= r.next <= |b| && r.value.List?
    decreases |b| - cursor, 1
  {
    if n == 0 then Parsed(List([]), cursor)
    else
      var first := Parse(b, cursor);
      if !first.Parsed? then first else Prepend([first.value], ParseItems(b, first.next, n - 1))
  }

  function Prepend(done: seq<Value>, rest: Result): Result {
    if rest.Parsed? && rest.value.List? then Parsed(List(done + rest.value.values), rest.next) else rest
  }

  /** parseValkeyResponse: recursive, but filling `values` and moving `cursor` in a loop. */
  method ParseResponse(b: string, start: nat) returns (r: Result)
    ensures r == Parse(b, start)
    decreases |b| - start, 0
  {
    if start >= |b| { return Incomplete; }
    var prefix := b[start];
    if prefix == '+' || prefix == ':' {
      var e := LineEnd(b, start);
      if e.None? { return Incomplete; }
      var raw := b[start + 1..e.value];
      if prefix == '+' { return Parsed(Text(raw), e.value + 2); }
      var n := ToInteger(raw);
      return Parsed(if n.Some? then Number(n.value) else OtherNumber(raw), e.value + 2);
    }
    if prefix == '$' {
      var e := LineEnd(b, start);
      if e.None? { return Incomplete; }
      var length := ToInteger(b[start + 1..e.value]);
      if length.None? { return Malformed; }
      if length.value == -1 { return Parsed(Null, e.value + 2); }
      if length.value < -1 { return Malformed; }
      var valueStart := e.value + 2;
      var valueEnd := valueStart + length.value;
      if |b| < valueEnd + 2 { return Incomplete; }
      return Parsed(Text(b[valueStart..valueEnd]), valueEnd + 2);
    }
    if prefix == '*' {
      var e := LineEnd(b, start);
      if e.None? { return Incomplete; }
      var length := ToInteger(b[start + 1..e.value]);
      if length.None? { return Malformed; }
      if length.value == -1 { return Parsed(Null, e.value + 2); }
      r := ParseArray(b, e.value + 2, length.value);
      return;
    }
    return Malformed;
  }

  /** The array branch of parseValkeyResponse; a count below -1 reads as an empty array. */
  method ParseArray(b: string, start: nat, length: int) returns (r: Result)
    requires start <= |b|
    ensures r == ParseItems(b, start, if length < 0 then 0 else length)
    decreases |b| - start, 1
  {
    ghost var n: nat := if length < 0 then 0 else length;
    var values: seq<Value>, cursor, index := [], start, 0;
    while index < length
      invariant start <= cursor <= |b| && 0 <= index <= n
      invariant ParseItems(b, start, n) == Prepend(values, ParseItems(b, cursor, n - index))
    {
      var nested := ParseResponse(b, cursor);
      if !nested.Parsed? { return nested; }
      PrependTwice(values, nested.value, ParseItems(b, nested.next, n - index - 1));
      values, cursor, index := values + [nested.value], nested.next, index + 1;
    }
    return Parsed(List(values), cursor);
  }

  lemma PrependTwice(done: seq<Value>, v: Value, rest: Result)
    ensures Prepend(done, Prepend([v], rest)) == Prepend(done + [v], rest)
  {
    if rest.Parsed? && rest.value.List? {
      assert done + ([v] + rest.value.values) == (done + [v]) + rest.value.values;
    }
  }

  // ---- rendering parses back ----------------------------------------------

  /** `s` stands in `b` at position `p`. */
  predicate At(b: string, p: nat, s: string) {
    p + |s| <= |b| && b[p..p + |s|] == s
  }

  /** From `p` on, `b` holds a strict prefix of `s`. */
  predicate CutShort(b: string, p: nat, s: string) {
    p <= |b| < p + |s| && b[p..] == s[..|b| - p]
  }

  lemma AtSplit(b: string, p: nat, x: string, y: string)
    requires At(b, p, x + y)
    ensures At(b, p, x) && At(b, p + |x|, y)
  {
    assert b[p..p + |x|] == (x + y)[..|x|] == x;
    assert b[p + |x|..p + |x| + |y|] == (x + y)[|x|..] == y;
  }

  lemma CutShortSplit(b: string, p: nat, x: string, y: string)
    requires CutShort(b, p, x + y)
    ensures CutShort(b, p, x) || (At(b, p, x) && CutShort(b, p + |x|, y))
  {
    var k := |b| - p;
    if k < |x| {
      assert (x + y)[..k] == x[..k];
    } else {
      assert b[p..p + |x|] == b[p..][..|x|] == (x + y)[..k][..|x|] == x;
      assert b[p + |x|..] == b[p..][|x|..] == (x + y)[..k][|x|..] == y[..k - |x|];
    }
  }

  lemma LineAt(b: string, p: nat, tag: char, body: string)
    requires At(b, p, Line(tag, body)) && tag in "+:$*" && '\r' !in body
    ensures Parse(b, p) == ParseAfterLine(b, tag, body, p + |Line(tag, body)|)
  {
    var line, e := Line(tag, body), p + 1 + |body|;
    forall i | 0 <= i < |line| ensures b[p + i] == line[i] {
      assert b[p..p + |line|][i] == line[i];
    }
    assert b[e] == line[1 + |body|] && b[e + 1] == line[2 + |body|];
    assert CrlfAt(b, e);
    forall i | p <= i < e ensures !CrlfAt(b, i) {
      assert b[p + (i - p)] == line[i - p];
    }
    assert b[p] == line[0];
    forall i | 0 <= i < |body| ensures b[p + 1..e][i] == body[i] {
      assert b[p + (1 + i)] == line[1 + i];
    }
    assert b[p + 1..e] == body;
  }

  /** A line cut short has no terminator yet. */
  lemma LineCutShort(b: string, p: nat, tag: char, body: string)
    requires CutShort(b, p, Line(tag, body)) && tag in "+:$*" && '\r' !in body
    ensures Parse(b, p) == Incomplete
  {
    var line := Line(tag, body);
    forall i | p <= i ensures !CrlfAt(b, i) {
      if i + 1 < |b| {
        assert b[i] == b[p..][i - p] == line[..|b| - p][i - p] == line[i - p];
      }
    }
    if p < |b| {
      assert b[p] == b[p..][0] == line[..|b| - p][0] == tag;
    }
  }

  /**
   Round trip: wherever it stands and whatever follows, a rendered reply
   parses to its value and to exactly its own length.
   */
  lemma {:induction false} RenderedParses(b: string, p: nat, r: Reply)
    requires WellFormed(r) && OneByte(r) && At(b, p, Render(r))
    ensures Parse(b, p) == Parsed(ValueOf(r), p + |Render(r)|)
    decreases r, 0
  {
    hide Line, At, Parse, ParseAfterLine, ParseItems;
    match r
    case Simple(t) => SimpleParses(b, p, t);
    case Integer(n) => IntegerParses(b, p, n);
    case NilBulk => NilParses(b, p, '$');
    case NilArray => NilParses(b, p, '*');
    case Bulk(t) => OneByteBulkParses(b, p, t);
    case Array(items) =>
      ArrayParses(b, p, items);
      RenderedItemsParse(b, p + |Line('*', Decimal(|items|))|, items);
  }

  lemma {:induction false} RenderedItemsParse(b: string, p: nat, items: seq<Reply>)
    requires forall i :: 0 <= i < |items| ==> WellFormed(items[i]) && OneByte(items[i])
    requires At(b, p, RenderAll(items))
    ensures ParseItems(b, p, |items|) == Parsed(List(ValuesOf(items)), p + |RenderAll(items)|)
    decreases items, 1
  {
    hide Render, Line, At, Parse, ParseAfterLine;
    if items != [] {
      AtSplit(b, p, Render(items[0]), RenderAll(items[1..]));
      RenderedParses(b, p, items[0]);
      RenderedItemsParse(b, p + |Render(items[0])|, items[1..]);
    }
  }

  /** How a bulk reply is read, whatever follows it: the byte count is taken as a character count. */
  lemma BulkParses(b: string, p: nat, t: string)
    requires At(b, p, Render(Bulk(t)))
    ensures var v := p + |Line('$', Decimal(ByteLength(t)))|; var n := ByteLength(t);
            At(b, v, t) && v + |t| + 2 <= |b| &&
            Parse(b, p) == if |b| < v + n + 2 then Incomplete else Parsed(Text(b[v..v + n]), v + n + 2)
  {
    hide Line, At, Render, Parse, ParseAfterLine, Decimal, ByteLength;
    BulkLayout(b, p, t);
    DecimalRoundTrip(ByteLength(t));
    LineAt(b, p, '$', Decimal(ByteLength(t)));
    BulkAfterLine(b, ByteLength(t), p + |Line('$', Decimal(ByteLength(t)))|);
  }

  lemma BulkLayout(b: string, p: nat, t: string)
    requires At(b, p, Render(Bulk(t)))
    ensures var head := Line('$', Decimal(ByteLength(t)));
            At(b, p, head) && At(b, p + |head|, t) && p + |head| + |t| + 2 <= |b|
  {
    var head := Line('$', Decimal(ByteLength(t)));
    AtSplit(b, p, head + t, "\r\n");
    AtSplit(b, p, head, t);
  }

  lemma BulkAfterLine(b: string, n: nat, v: nat)
    requires v <= |b|
    ensures ParseAfterLine(b, '$', Decimal(n), v) ==
            if |b| < v + n + 2 then Incomplete else Parsed(Text(b[v..v + n]), v + n + 2)
  {
    DecimalRoundTrip(n);
  }

  lemma SimpleParses(b: string, p: nat, t: string)
    requires '\r' !in t && At(b, p, Line('+', t))
    ensures Parse(b, p) == Parsed(Text(t), p + |Line('+', t)|)
  {
    LineAt(b, p, '+', t);
  }

  lemma IntegerParses(b: string, p: nat, n: int)
    requires At(b, p, Line(':', Decimal(n)))
    ensures Parse(b, p) == Parsed(Number(n), p + |Line(':', Decimal(n))|)
  {
    DecimalRoundTrip(n);
    LineAt(b, p, ':', Decimal(n));
  }

  lemma NilParses(b: string, p: nat, tag: char)
    requires (tag == '$' || tag == '*') && At(b, p, Line(tag, "-1"))
    ensures Parse(b, p) == Parsed(Null, p + |Line(tag, "-1")|)
  {
    DecimalRoundTrip(-1);
    assert Decimal(-1) == "-1";
    LineAt(b, p, tag, "-1");
  }

  lemma OneByteBulkParses(b: string, p: nat, t: string)
    requires OneByteText(t) && At(b, p, Render(Bulk(t)))
    ensures Parse(b, p) == Parsed(Text(t), p + |Render(Bulk(t))|)
  {
    ByteLengthIsLength(t);
    BulkParses(b, p, t);
  }

  lemma ArrayParses(b: string, p: nat, items: seq<Reply>)
    requires At(b, p, Render(Array(items)))
    ensures var next := p + |Line('*', Decimal(|items|))|;
            At(b, next, RenderAll(items)) && Parse(b, p) == ParseItems(b, next, |items|)
  {
    DecimalRoundTrip(|items|);
    AtSplit(b, p, Line('*', Decimal(|items|)), RenderAll(items));
    LineAt(b, p, '*', Decimal(|items|));
  }

  // ---- strict prefixes are incomplete --------------------------------------

  /**
   A rendered reply cut short reads as "not all here yet", never as an error or
   a value, if multi-byte text stands only at its end.
   */
  lemma {:induction false} PrefixIncomplete(b: string, p: nat, r: Reply)
    requires WellFormed(r) && WideOnlyAtEnd(r) && CutShort(b, p, Render(r))
    ensures Parse(b, p) == Incomplete
    decreases r, 0
  {
    hide Line, Parse, ParseAfterLine, ParseItems;
    match r
    case Simple(t) => LineCutShort(b, p, '+', t);
    case Integer(n) =>
      DecimalRoundTrip(n);
      LineCutShort(b, p, ':', Decimal(n));
    case NilBulk => LineCutShort(b, p, '$', "-1");
    case NilArray => LineCutShort(b, p, '*', "-1");
    case Bulk(t) => BulkCutShort(b, p, t);
    case Array(items) =>
      ArrayCutShort(b, p, items);
      var next := p + |Line('*', Decimal(|items|))|;
      if Parse(b, p) != Incomplete {
        ItemsPrefixIncomplete(b, next, items);
      }
  }

  lemma BulkCutShort(b: string, p: nat, t: string)
    requires CutShort(b, p, Render(Bulk(t)))
    ensures Parse(b, p) == Incomplete
  {
    var n := ByteLength(t);
    var head := Line('$', Decimal(n));
    DecimalRoundTrip(n);
    ByteLengthIsLength(t);
    assert Render(Bulk(t)) == head + (t + "\r\n");
    CutShortSplit(b, p, head, t + "\r\n");
    if CutShort(b, p, head) {
      LineCutShort(b, p, '$', Decimal(n));
    } else {
      LineAt(b, p, '$', Decimal(n));
      BulkAfterLine(b, n, p + |head|);
    }
  }

  /** An array cut short either lacks its first line or reads as its items, cut short. */
  lemma ArrayCutShort(b: string, p: nat, items: seq<Reply>)
    requires CutShort(b, p, Render(Array(items)))
    ensures var next := p + |Line('*', Decimal(|items|))|;
            Parse(b, p) == Incomplete ||
            (CutShort(b, next, RenderAll(items)) && Parse(b, p) == ParseItems(b, next, |items|))
  {
    hide Parse, Line, At, CutShort, ParseItems;
    var head := Line('*', Decimal(|items|));
    DecimalRoundTrip(|items|);
    CutShortSplit(b, p, head, RenderAll(items));
    if CutShort(b, p, head) {
      LineCutShort(b, p, '*', Decimal(|items|));
    } else {
      LineAt(b, p, '*', Decimal(|items|));
    }
  }

  lemma {:induction false} ItemsPrefixIncomplete(b: string, p: nat, items: seq<Reply>)
    requires WellFormed(Array(items)) && WideOnlyAtEnd(Array(items))
    requires CutShort(b, p, RenderAll(items))
    ensures ParseItems(b, p, |items|) == Incomplete
    decreases items, 1
  {
    hide Render, Line, At, Parse, ParseAfterLine;
    var first, rest := Render(items[0]), RenderAll(items[1..]);
    CutShortSplit(b, p, first, rest);
    if CutShort(b, p, first) {
      if |items| > 1 { OneByteIsEnough(items[0]); }
      PrefixIncomplete(b, p, items[0]);
    } else {
      RenderedParses(b, p, items[0]);
      ItemsPrefixIncomplete(b, p + |first|, items[1..]);
    }
  }

  // ---- multi-byte text further ahead ----------------------------------------

  /** How many characters the parser reads beyond a bulk string, for the bytes its text has in excess. */
  function Excess(t: string): nat {
    ByteLengthIsLength(t);
    ByteLength(t) - |t|
  }

  /** An array cut short behind the text of its first bulk string, `seen` characters into what follows. */
  function CutBehind(t: string, more: seq<Reply>, seen: nat): string
    requires seen <= |RenderAll(more)|
  {
    Line('*', Decimal(1 + |more|)) + Render(Bulk(t)) + RenderAll(more)[..seen]
  }

  lemma CutBehindIsPrefix(t: string, more: seq<Reply>, seen: nat)
    requires seen <= |RenderAll(more)|
    ensures CutBehind(t, more, seen) + RenderAll(more)[seen..] == Render(Array([Bulk(t)] + more))
  {
    var items, x, y := [Bulk(t)] + more, RenderAll(more)[..seen], RenderAll(more)[seen..];
    assert items[0] == Bulk(t) && items[1..] == more && |items| == 1 + |more|;
    assert RenderAll(items) == Render(Bulk(t)) + RenderAll(more) && RenderAll(more) == x + y;
    hide Line, Decimal, RenderAll;
    Regroup(Line('*', Decimal(1 + |more|)), Render(Bulk(t)), x, y);
  }

  lemma Regroup(a: string, b: string, x: string, y: string)
    ensures a + b + x + y == a + (b + (x + y))
  {
  }

  lemma BehindLayout(t: string, more: seq<Reply>, seen: nat)
    requires seen <= |RenderAll(more)|
    ensures var b, head, bulk := CutBehind(t, more, seen), Line('*', Decimal(1 + |more|)), Render(Bulk(t));
            At(b, 0, head) && At(b, |head|, bulk) && |b| == |head| + |bulk| + seen &&
            (seen > 0 ==> b[|b| - 1] == RenderAll(more)[seen - 1])
  {
    hide RenderAll;
    var b, head, bulk := CutBehind(t, more, seen), Line('*', Decimal(1 + |more|)), Render(Bulk(t));
    assert b == head + (bulk + RenderAll(more)[..seen]);
    hide Line, Decimal, Render, ByteLength;
  }

  /** An array line is followed by its items. */
  lemma ArrayLineAt(b: string, n: nat)
    requires At(b, 0, Line('*', Decimal(n)))
    ensures Parse(b, 0) == ParseItems(b, |Line('*', Decimal(n))|, n)
  {
    DecimalRoundTrip(n);
    LineAt(b, 0, '*', Decimal(n));
    hide Parse, Line, Decimal, At, ParseItems;
  }

  lemma ItemsUnfold(b: string, cursor: nat, n: nat)
    requires cursor <= |b|
    ensures var first := Parse(b, cursor);
            ParseItems(b, cursor, n + 1) ==
            if !first.Parsed? then first else Prepend([first.value], ParseItems(b, first.next, n))
  {
  }

  /** The items behind the first are read where the excess ends. */
  lemma ReadBehind(t: string, more: seq<Reply>, seen: nat) returns (first: Value)
    requires seen <= |RenderAll(more)|
    ensures var b := CutBehind(t, more, seen); var v := |b| - seen + Excess(t);
            if seen < Excess(t) then Parse(b, 0) == Incomplete
            else v <= |b| && Parse(b, 0) == Prepend([first], ParseItems(b, v, |more|))
  {
    hide *;
    var b, head := CutBehind(t, more, seen), Line('*', Decimal(1 + |more|));
    BehindLayout(t, more, seen);
    ArrayLineAt(b, 1 + |more|);
    BulkEndsLate(b, |head|, t);
    ItemsUnfold(b, |head|, |more|);
    var got := Parse(b, |head|);
    first := if got.Parsed? then got.value else Null;
  }

  /** A bulk string ends later than it was written, by its excess. */
  lemma BulkEndsLate(b: string, p: nat, t: string)
    requires At(b, p, Render(Bulk(t)))
    ensures var end := p + |Render(Bulk(t))| + Excess(t); var got := Parse(b, p);
            if |b| < end then got == Incomplete else got.Parsed? && got.next == end
  {
    BulkParses(b, p, t);
    assert |Render(Bulk(t))| == |Line('$', Decimal(ByteLength(t)))| + |t| + 2;
    hide Parse, Render, Line, At, Decimal;
  }

  /**
   Multi-byte text ahead of other items: the parser goes on in the middle of
   them. If it lands on a character that starts no reply, and that is not the
   last one, a strict prefix is rejected although nothing is wrong with it.
   */
  lemma WideTextMisaligns(t: string, more: seq<Reply>)
    requires more != [] && Excess(t) + 1 < |RenderAll(more)| && RenderAll(more)[Excess(t)] !in "+:$*"
    ensures CutBehind(t, more, Excess(t) + 1) < Render(Array([Bulk(t)] + more))
    ensures Parse(CutBehind(t, more, Excess(t) + 1), 0) == Malformed
  {
    hide Render, RenderAll, Decimal, Line, CutBehind, Excess;
    var d := Excess(t);
    var b := CutBehind(t, more, d + 1);
    CutBehindIsPrefix(t, more, d + 1);
    var _ := ReadBehind(t, more, d + 1);
    BehindLayout(t, more, d + 1);
    RejectedItem(b, |b| - 1, |more|);
  }

  lemma RejectedItem(b: string, v: nat, n: nat)
    requires v < |b| && b[v] !in "+:$*" && n > 0
    ensures ParseItems(b, v, n) == Malformed
  {
  }

  /** If it lands at the end or beyond, every strict prefix is incomplete after all. */
  lemma WideTextOvershoots(t: string, more: seq<Reply>, b: string)
    requires more != [] && WellFormed(Array(more)) && |RenderAll(more)| <= Excess(t) + 1
    requires b < Render(Array([Bulk(t)] + more))
    ensures Parse(b, 0) == Incomplete
  {
    CutBehindIsPrefix(t, more, 0);
    var whole := CutBehind(t, more, 0);
    if |b| < |whole| {
      assert b == Render(Array([Bulk(t)] + more))[..|b|] == whole[..|b|];
      CutAhead(t, more, b);
    } else {
      var seen := |b| - |whole|;
      CutBehindIsPrefix(t, more, seen);
      assert b == CutBehind(t, more, seen);
      var _ := ReadBehind(t, more, seen);
      hide Render, RenderAll, Decimal, Line, CutBehind, Excess;
    }
  }

  lemma CutAhead(t: string, more: seq<Reply>, b: string)
    requires b < CutBehind(t, more, 0)
    ensures Parse(b, 0) == Incomplete
  {
    var n := 1 + |more|;
    var head, bulk := Line('*', Decimal(n)), Render(Bulk(t));
    DecimalRoundTrip(n);
    assert head + bulk == CutBehind(t, more, 0) && b[0..] == b;
    assert CutShort(b, 0, head + bulk);
    CutShortSplit(b, 0, head, bulk);
    if CutShort(b, 0, head) {
      LineCutShort(b, 0, '*', Decimal(n));
    } else {
      LineAt(b, 0, '*', Decimal(n));
      BulkCutShort(b, |head|, t);
      FirstItemMissing(b, n);
    }
    hide *;
  }

  lemma FirstItemMissing(b: string, n: nat)
    requires n > 0 && At(b, 0, Line('*', Decimal(n))) && Parse(b, |Line('*', Decimal(n))|) == Incomplete
    ensures Parse(b, 0) == Incomplete
  {
    var head := Line('*', Decimal(n));
    DecimalRoundTrip(n);
    LineAt(b, 0, '*', Decimal(n));
    hide Line, At;
    assert ParseItems(b, |head|, n) == Incomplete;
  }

  /** The shortest case: a two-byte character in front of another bulk string. */
  lemma WidePrefixIsRejected()
    ensures var r := Array([Bulk("\U{00e9}"), Bulk("a")]); var b := "*2\r\n$2\r\n\U{00e9}\r\n$1";
            WellFormed(r) && b < Render(r) && Parse(b, 0) == Malformed
  {
    var more := [Bulk("a")];
    SmallRenderings();
    hide Render, Decimal, ByteLength, Parse;
    assert more[1..] == [] && RenderAll(more) == Render(Bulk("a")) + "" == Render(Bulk("a"));
    assert CutBehind("\U{00e9}", more, 2) == "*2\r\n$2\r\n\U{00e9}\r\n$1";
    WideTextMisaligns("\U{00e9}", more);
    assert [Bulk("\U{00e9}")] + more == [Bulk("\U{00e9}"), Bulk("a")];
  }

  lemma SmallRenderings()
    ensures Decimal(2) == "2" && ByteLength("\U{00e9}") == 2
    ensures Render(Bulk("a")) == "$1\r\na\r\n" && Render(Bulk("\U{00e9}")) == "$2\r\n\U{00e9}\r\n"
  {
    assert "a"[1..] == "" && "\U{00e9}"[1..] == "";
    assert ByteLength("a") == 1 && Decimal(1) == "1";
  }

  // ---- where the round trip fails ------------------------------------------

  /** With a multi-byte bulk string anywhere inside, the parser never returns the value that was sent. */
  lemma {:induction false} MultiByteIsMisread(b: string, p: nat, r: Reply)
    requires WellFormed(r) && !OneByte(r) && At(b, p, Render(r))
    ensures var got := Parse(b, p); !(got.Parsed? && got.value == ValueOf(r))
    decreases r, 0
  {
    hide Line, At, Parse, ParseAfterLine, ParseItems;
    match r
    case Bulk(t) => MultiByteBulkMisread(b, p, t);
    case Array(items) =>
      ArrayParses(b, p, items);
      MultiByteItemsMisread(b, p + |Line('*', Decimal(|items|))|, items);
    case _ =>
  }

  lemma MultiByteBulkMisread(b: string, p: nat, t: string)
    requires !OneByteText(t) && At(b, p, Render(Bulk(t)))
    ensures var got := Parse(b, p); !(got.Parsed? && got.value == Text(t))
  {
    ByteLengthIsLength(t);
    BulkParses(b, p, t);
    var got := Parse(b, p);
    if got.Parsed? {
      assert |got.value.s| == ByteLength(t);
    }
  }

  lemma {:induction false} MultiByteItemsMisread(b: string, p: nat, items: seq<Reply>)
    requires forall i :: 0 <= i < |items| ==> WellFormed(items[i])
    requires exists i :: 0 <= i < |items| && !OneByte(items[i])
    requires At(b, p, RenderAll(items))
    ensures var got := ParseItems(b, p, |items|); !(got.Parsed? && got.value == List(ValuesOf(items)))
    decreases items, 1
  {
    hide Render, Line, At, Parse, ParseAfterLine;
    var first, rest := Render(items[0]), items[1..];
    AtSplit(b, p, first, RenderAll(rest));
    if OneByte(items[0]) {
      RenderedParses(b, p, items[0]);
      var i :| 0 <= i < |items| && !OneByte(items[i]);
      assert !OneByte(rest[i - 1]);
      MultiByteItemsMisread(b, p + |first|, rest);
      ConsMismatch(ValueOf(items[0]), ParseItems(b, p + |first|, |rest|), ValueOf(items[0]), ValuesOf(rest));
    } else {
      MultiByteIsMisread(b, p, items[0]);
      var got := Parse(b, p);
      if got.Parsed? {
        ConsMismatch(got.value, ParseItems(b, got.next, |rest|), ValueOf(items[0]), ValuesOf(rest));
      }
    }
  }

  lemma ConsMismatch(v: Value, rest: Result, head: Value, tail: seq<Value>)
    requires rest.Parsed? ==> rest.value.List?
    requires v != head || !(rest.Parsed? && rest.value == List(tail))
    ensures var got := Prepend([v], rest); !(got.Parsed? && got.value == List([head] + tail))
  {
    if rest.Parsed? {
      var vs := rest.value.values;
      assert ([v] + vs)[0] == v && ([v] + vs)[1..] == vs;
      assert ([head] + tail)[0] == head && ([head] + tail)[1..] == tail;
    }
  }

  lemma AtStart(s: string, post: string)
    ensures At(s + post, 0, s)
  {
    assert (s + post)[0..|s|] == s;
  }

  /**
   The exact condition: a well-formed reply, followed by anything, is read back
   as its value and its length if and only if all its bulk strings are one-byte text.
   */
  lemma RoundTripIff(r: Reply, post: string)
    requires WellFormed(r)
    ensures Parse(Render(r) + post, 0) == Parsed(ValueOf(r), |Render(r)|) <==> OneByte(r)
  {
    AtStart(Render(r), post);
    if OneByte(r) {
      RenderedParses(Render(r) + post, 0, r);
    } else {
      MultiByteIsMisread(Render(r) + post, 0, r);
    }
  }

  /** A lone multi-byte bulk reply, delivered whole, still reads as incomplete: the command can only time out. */
  lemma LoneBulkNeverCompletes(t: string)
    ensures Parse(Render(Bulk(t)), 0) == Incomplete <==> !OneByteText(t)
  {
    assert Render(Bulk(t)) + "" == Render(Bulk(t));
    AtStart(Render(Bulk(t)), "");
    ByteLengthIsLength(t);
    BulkParses(Render(Bulk(t)), 0, t);
  }

  // ---- encoding -----------------------------------------------------------

  datatype Arg = Str(s: string) | Num(n: int)

  /** String(arg) */
  function ArgText(a: Arg): string {
    match a case Str(s) => s case Num(n) => Decimal(n)
  }

  function ArgReplies(args: seq<Arg>): (rs: seq<Reply>)
    ensures |rs| == |args| && forall i :: 0 <= i < |args| ==> rs[i] == Bulk(ArgText(args[i]))
  {
    seq(|args|, i requires 0 <= i < |args| => Bulk(ArgText(args[i])))
  }

  function Join(parts: seq<string>): string {
    if parts == [] then "" else Join(parts[..|parts| - 1]) + parts[|parts| - 1]
  }

  lemma JoinSnoc(parts: seq<string>, part: string)
    ensures Join(parts + [part]) == Join(parts) + part
  {
    assert (parts + [part])[..|parts|] == parts;
  }

  lemma EncodeStep(parts: seq<string>, head: string, replies: seq<Reply>, i: nat, part: string)
    requires i < |replies| && part == Render(replies[i])
    requires Join(parts) == head + RenderAll(replies[..i])
    ensures Join(parts + [part]) == head + RenderAll(replies[..i + 1])
  {
    assert replies[..i + 1] == replies[..i] + [replies[i]];
    RenderAllSnoc(replies[..i], replies[i]);
    JoinSnoc(parts, part);
  }

  /** encodeValkeyCommand writes exactly the RESP array of its arguments' texts. */
  method EncodeCommand(args: seq<Arg>) returns (command: string)
    ensures command == Render(Array(ArgReplies(args)))
  {
    ghost var head, replies := Line('*', Decimal(|args|)), ArgReplies(args);
    var parts := [Line('*', Decimal(|args|))];
    JoinSnoc([], head);
    assert [] + [head] == parts;
    for i := 0 to |args|
      invariant Join(parts) == head + RenderAll(replies[..i])
    {
      var value := ArgText(args[i]);
      var part := Line('$', Decimal(ByteLength(value))) + value + "\r\n";
      EncodeStep(parts, head, replies, i, part);
      parts := parts + [part];
    }
    assert replies[..|args|] == replies;
    command := Join(parts);
  }

  lemma {:induction false} RenderAllSnoc(items: seq<Reply>, r: Reply)
    ensures RenderAll(items + [r]) == RenderAll(items) + Render(r)
  {
    if items == [] {
      assert [r][1..] == [];
    } else {
      assert (items + [r])[1..] == items[1..] + [r];
      RenderAllSnoc(items[1..], r);
    }
  }

  // ---- on the wire -------------------------------------------------------------

  /** The forms of RESP2, as they stand on the wire, and what the parser makes of each. */
  lemma LineForms(t: string, n: int)
    requires '\r' !in t
    ensures Parse("+" + t + "\r\n", 0) == Parsed(Text(t), |t| + 3)
    ensures Parse(":" + Decimal(n) + "\r\n", 0) == Parsed(Number(n), |Decimal(n)| + 3)
    ensures Parse("$-1\r\n", 0) == Parsed(Null, 5) && Parse("*-1\r\n", 0) == Parsed(Null, 5)
  {
    hide Parse, Decimal;
    WholeIsAt("+" + t + "\r\n", Line('+', t));
    SimpleParses("+" + t + "\r\n", 0, t);
    WholeIsAt(":" + Decimal(n) + "\r\n", Line(':', Decimal(n)));
    IntegerParses(":" + Decimal(n) + "\r\n", 0, n);
    NilForms();
  }

  /** Which texts are read as integers, besides the empty one, which is 0: digits, with one sign or none. */
  lemma IntegersIff(s: string)
    ensures ToInteger(s).Some? <==> AllDigits(s) || (|s| > 1 && s[0] in "+-" && AllDigits(s[1..]))
    ensures ToInteger("") == Some(0)
    ensures AllDigits(s) ==> ToInteger("+" + s) == (if s == "" then None else ToInteger(s))
  {
    DigitsIff(s);
    if s != "" { DigitsIff(s[1..]); }
    assert ("+" + s)[1..] == s;
    assert s != "" && AllDigits(s) ==> s[0] != '-' && s[0] != '+';
  }

  lemma {:induction false} DigitsIff(s: string)
    ensures ToNat(s).Some? <==> AllDigits(s)
  {
    if s != "" {
      DigitsIff(s[..|s| - 1]);
      assert s == s[..|s| - 1] + [s[|s| - 1]];
    }
  }

  /**
   What a server does not send: a length below zero other than -1 is an empty
   array, a number that is no integer is handed on, and where a length is none,
   or the type is unknown, the reply is malformed.
   */
  lemma OddForms(n: int, raw: string, c: char, rest: string)
    requires n < -1 && '\r' !in raw && ToInteger(raw).None? && c !in "+:$*"
    ensures Parse("*" + Decimal(n) + "\r\n", 0) == Parsed(List([]), |Decimal(n)| + 3)
    ensures Parse(":" + raw + "\r\n", 0) == Parsed(OtherNumber(raw), |raw| + 3)
    ensures Parse("$" + raw + "\r\n", 0) == Malformed && Parse("*" + raw + "\r\n", 0) == Malformed
    ensures Parse([c] + rest, 0) == Malformed
  {
    DecimalRoundTrip(n);
    OddLine("*" + Decimal(n) + "\r\n", '*', Decimal(n));
    OddLine(":" + raw + "\r\n", ':', raw);
    OddLine("$" + raw + "\r\n", '$', raw);
    OddLine("*" + raw + "\r\n", '*', raw);
    hide Decimal, ToInteger;
  }

  lemma OddLine(b: string, tag: char, body: string)
    requires b == [tag] + body + "\r\n" && tag in "+:$*" && '\r' !in body
    ensures Parse(b, 0) == ParseAfterLine(b, tag, body, |body| + 3)
  {
    hide Parse, ParseAfterLine, At;
    assert b == Line(tag, body) && |Line(tag, body)| == |body| + 3;
    hide Line;
    WholeIsAt(b, Line(tag, body));
    LineAt(b, 0, tag, body);
  }

  lemma NilForms()
    ensures Parse("$-1\r\n", 0) == Parsed(Null, 5) && Parse("*-1\r\n", 0) == Parsed(Null, 5)
  {
    hide Parse;
    WholeIsAt("$-1\r\n", Line('$', "-1"));
    NilParses("$-1\r\n", 0, '$');
    WholeIsAt("*-1\r\n", Line('*', "-1"));
    NilParses("*-1\r\n", 0, '*');
  }

  lemma WholeIsAt(b: string, s: string)
    requires b == s
    ensures At(b, 0, s)
  {
  }

  lemma BulkForm(t: string)
    requires OneByteText(t)
    ensures Render(Bulk(t)) == "$" + Decimal(|t|) + "\r\n" + t + "\r\n"
    ensures Parse("$" + Decimal(|t|) + "\r\n" + t + "\r\n", 0) == Parsed(Text(t), |Decimal(|t|)| + |t| + 5)
  {
    ByteLengthIsLength(t);
    hide Parse, Decimal, ByteLength;
    var b := "$" + Decimal(|t|) + "\r\n" + t + "\r\n";
    assert At(b, 0, b);
    OneByteBulkParses(b, 0, t);
  }

  lemma ArrayForms(x: Reply, y: Reply)
    requires WellFormed(x) && OneByte(x) && WellFormed(y) && OneByte(y)
    ensures Render(Array([])) == "*0\r\n" && Render(Array([x])) == "*1\r\n" + Render(x)
    ensures Render(Array([x, y])) == "*2\r\n" + Render(x) + Render(y)
    ensures Parse(Render(Array([])), 0) == Parsed(List([]), 4)
    ensures Parse(Render(Array([x, y])), 0) == Parsed(List([ValueOf(x), ValueOf(y)]), |Render(x)| + |Render(y)| + 4)
  {
    SmallDecimals();
    ThreeArrays(x, y);
    hide Parse, Decimal, Render, ValueOf;
    forall r | r in {Array([]), Array([x, y])} ensures At(Render(r), 0, Render(r)) {}
    RenderedParses(Render(Array([])), 0, Array([]));
    RenderedParses(Render(Array([x, y])), 0, Array([x, y]));
  }

  lemma ThreeArrays(x: Reply, y: Reply)
    ensures Render(Array([])) == Line('*', Decimal(0)) && ValueOf(Array([])) == List([])
    ensures Render(Array([x])) == Line('*', Decimal(1)) + Render(x)
    ensures Render(Array([x, y])) == Line('*', Decimal(2)) + Render(x) + Render(y)
    ensures ValueOf(Array([x, y])) == List([ValueOf(x), ValueOf(y)])
  {
    var a, b := Render(x), Render(y);
    assert RenderAll([]) == "" && ValuesOf([]) == [] && Line('*', Decimal(0)) + "" == Line('*', Decimal(0));
    assert [y][1..] == [] && [x][1..] == [] && [x, y][1..] == [y];
    assert RenderAll([y]) == b + "" == b && RenderAll([x]) == a + "" == a;
    assert RenderAll([x, y]) == a + RenderAll([y]);
    assert Line('*', Decimal(2)) + (a + b) == Line('*', Decimal(2)) + a + b;
    assert ValuesOf([y]) == [ValueOf(y)] + ValuesOf([]) == [ValueOf(y)];
    assert ValuesOf([x, y]) == [ValueOf(x)] + ValuesOf([y]) == [ValueOf(x), ValueOf(y)];
  }

  lemma SmallDecimals()
    ensures Decimal(0) == "0" && Decimal(1) == "1" && Decimal(2) == "2" && Decimal(10) == "10" && Decimal(-12) == "-12"
  {
    assert Digits(1) == "1" && Digits(10) == Digits(1) + "0" && Digits(12) == Digits(1) + "2";
  }

  /** A command with one argument, as it stands on the wire. */
  lemma CommandOnTheWire(name: string, key: string)
    requires OneByteText(name) && OneByteText(key)
    ensures Render(Array(ArgReplies([Str(name), Str(key)]))) ==
            "*2\r\n" + ("$" + Decimal(|name|) + "\r\n" + name + "\r\n") +
            ("$" + Decimal(|key|) + "\r\n" + key + "\r\n")
    ensures ArgReplies([Num(-12)]) == [Bulk("-12")]
  {
    SmallDecimals();
    BulkForm(name);
    BulkForm(key);
    ThreeArrays(Bulk(name), Bulk(key));
    ArgTexts(name, key);
    hide *;
    assert Line('*', "2") == "*2\r\n" by { LineTwo(); }
  }

  lemma LineTwo()
    ensures Line('*', "2") == "*2\r\n"
  {
  }

  lemma ArgTexts(name: string, key: string)
    ensures ArgReplies([Str(name), Str(key)]) == [Bulk(name), Bulk(key)]
    ensures ArgReplies([Num(-12)]) == [Bulk(Decimal(-12))]
  {
  }

  function TextsOf(args: seq<Arg>): (vs: seq<Value>)
    ensures |vs| == |args| && forall i :: 0 <= i < |args| ==> vs[i] == Text(ArgText(args[i]))
  {
    seq(|args|, i requires 0 <= i < |args| => Text(ArgText(args[i])))
  }

  /** An encoded command parses back to its arguments, if and only if they are all one-byte text. */
  lemma EncodedParsesBack(args: seq<Arg>, post: string)
    ensures var command := Render(Array(ArgReplies(args)));
            Parse(command + post, 0) == Parsed(List(TextsOf(args)), |command|) <==>
            forall i :: 0 <= i < |args| ==> OneByteText(ArgText(args[i]))
  {
    var rs := ArgReplies(args);
    ValuesOfBulks(args);
    RoundTripIff(Array(rs), post);
    assert OneByte(Array(rs)) <==> forall i :: 0 <= i < |args| ==> OneByteText(ArgText(args[i])) by {
      assert forall i :: 0 <= i < |rs| ==> (OneByte(rs[i]) <==> OneByteText(ArgText(args[i])));
    }
  }

  lemma {:induction false} ValuesAt(items: seq<Reply>, i: nat)
    requires i < |items|
    ensures ValuesOf(items)[i] == ValueOf(items[i])
  {
    if i > 0 { ValuesAt(items[1..], i - 1); }
  }

  lemma ValuesOfBulks(args: seq<Arg>)
    ensures ValuesOf(ArgReplies(args)) == TextsOf(args)
  {
    forall i | 0 <= i < |args| ensures ValuesOf(ArgReplies(args))[i] == TextsOf(args)[i] {
      ValuesAt(ArgReplies(args), i);
    }
  }
}
