/** Quoted and trimmed scalars of the YAML subset. A byte is a char; every text is a sequence of them. */
module YamlText {
  import opened Sequences

  datatype Result<T> = Ok(value: T) | Err(fault: Fault) {
    predicate IsFailure() {
      Err?
    }

    function PropagateFailure<U>(): Result<U>
      requires Err?
    {
      Err(fault)
    }

    function Extract(): T
      requires Ok?
    {
      value
    }
  }

  /** Why a text is refused; the messages and line numbers are not modelled. */
  datatype Fault =
    | UnknownEscape | ShortEscape | BadHexDigit | MissingQuote | TextAfterQuote
    | FlowMap | Anchor | BlockScalar | MissingBracket | EmptyItem | ExpectedComma | NestedFlow | TextAfterBracket
    | ItemForKey | ExpectedKey | DuplicateKey | NestedItems | UnexpectedIndent | FirstIndented | TabIndent | SecondDocument
    | NoMap | UnknownKey | NoList | BadCount | NoNumber | OutOfRange | NoBool | NoText | TooLong | NoWord | MissingKey
    | NotConfig | OldFormat | Invalid

  predicate IsBlank(c: char) {
    c == ' ' || c == '\t'
  }

  function TrimLeft(s: string): (t: string)
    ensures |t| <= |s| && (t == "" || !IsBlank(t[0]))
  {
    if s != "" && IsBlank(s[0]) then TrimLeft(s[1..]) else s
  }

  function TrimRight(s: string): (t: string)
    ensures |t| <= |s| && (t == "" || !IsBlank(t[|t| - 1]))
  {
    if s != "" && IsBlank(s[|s| - 1]) then TrimRight(s[..|s| - 1]) else s
  }

  function Trim(s: string): string {
    TrimRight(TrimLeft(s))
  }

  /** Nothing to trim. */
  predicate Trimmed(s: string) {
    s != "" ==> !IsBlank(s[0]) && !IsBlank(s[|s| - 1])
  }

  // ---------------------------------------------------------------- quoting

  const HEX := "0123456789ABCDEF"

  /** The character that stands for c in double quotes. */
  function Escape(c: char): string {
    if c == '\"' || c == '\\' then ['\\', c]
    else if c as int < 0x20 || c as int == 0x7F then ['\\', 'x', HEX[c as int / 16], HEX[c as int % 16]]
    else [c]
  }

  function Escaped(s: string): string {
    if s == "" then "" else Escape(s[0]) + Escaped(s[1..])
  }

  /** What YamlQuote() makes of a string. */
  function Quote(s: string): (q: string)
    ensures |q| >= 2 && q[0] == '\"' && q[|q| - 1] == '\"'
  {
    "\"" + Escaped(s) + "\""
  }

  lemma {:induction false} EscapedJoin(a: string, b: string)
    ensures Same(Escaped(a + b), Escaped(a) + Escaped(b))
    decreases |a|
  {
    if a == "" {
      assert a + b == b && "" + Escaped(b) == Escaped(b);
    } else {
      EscapedJoin(a[1..], b);
      EscapedStep(a, b);
    }
  }

  lemma EscapedStep(a: string, b: string)
    requires a != "" && Same(Escaped(a[1..] + b), Escaped(a[1..]) + Escaped(b))
    ensures Same(Escaped(a + b), Escaped(a) + Escaped(b))
  {
    EscapedFirst(a[0], a[1..]);
    EscapedFirst(a[0], a[1..] + b);
    Regroup([a[0]], a[1..], b);
    Regroup(Escape(a[0]), Escaped(a[1..]), Escaped(b));
    assert Same([a[0]] + a[1..], a) by { assert [a[0]] + a[1..] == a; }
  }

  lemma EscapedFirst(c: char, s: string)
    ensures Same(Escaped([c] + s), Escape(c) + Escaped(s))
  {
    assert ([c] + s)[1..] == s;
  }

  lemma EscapedNext(s: string, i: nat)
    requires i < |s|
    ensures Same(Escaped(s[..i + 1]), Escaped(s[..i]) + Escape(s[i]))
  {
    EscapedJoin(s[..i], [s[i]]);
    assert s[..i] + [s[i]] == s[..i + 1];
    assert [s[i]][1..] == "";
    assert Escaped([s[i]]) == Escape(s[i]) + "" == Escape(s[i]);
  }

  method YamlQuote(s: string) returns (out: string)
    ensures out == Quote(s)
  {
    out := "\"";
    assert s[..0] == "" && "\"" + "" == "\"";
    for i := 0 to |s|
      invariant Same(out, "\"" + Escaped(s[..i]))
    {
      var c := s[i];
      EscapedNext(s, i);
      Regroup("\"", Escaped(s[..i]), Escape(c));
      var e: string;
      if c == '\"' || c == '\\' {
        e := ['\\', c];
      } else if c as int < 0x20 || c as int == 0x7F {
        e := ['\\', 'x', HEX[c as int / 16], HEX[c as int % 16]];
      } else {
        e := [c];
      }
      assert Same(e, Escape(c));
      out := out + e;
    }
    assert s[..|s|] == s;
    out := out + ['\"'];
  }

  // ---------------------------------------------------------------- reading a quoted scalar

  function HexValue(h: char): int {
    if '0' <= h <= '9' then h as int - '0' as int
    else if 'a' <= h <= 'f' then h as int - 'a' as int + 10
    else if 'A' <= h <= 'F' then h as int - 'A' as int + 10
    else -1
  }

  /** The value of n hex digits at s[p..]; -1 if one is none. */
  function HexNumber(s: string, p: nat, n: nat, acc: nat): int
    requires p + n <= |s|
    decreases n
  {
    if n == 0 then acc
    else if HexValue(s[p]) < 0 then -1
    else HexNumber(s, p + 1, n - 1, 16 * acc + HexValue(s[p]))
  }

  lemma {:induction false} HexNumberBound(s: string, p: nat, n: nat, acc: nat)
    requires p + n <= |s| && n <= 4
    ensures HexNumber(s, p, n, acc) < (acc + 1) * (if n == 0 then 1 else if n == 1 then 16 else if n == 2 then 256 else if n == 3 then 4096 else 65536)
    decreases n
  {
    if n > 0 && HexValue(s[p]) >= 0 {
      HexNumberBound(s, p + 1, n - 1, 16 * acc + HexValue(s[p]));
    }
  }

  /** The UTF-8 bytes of a code point below 0x10000. */
  function Utf8(v: nat): string
    requires v < 0x10000
  {
    if v < 0x80 then [v as char]
    else if v < 0x800 then [(0xC0 + v / 64) as char, (0x80 + v % 64) as char]
    else [(0xE0 + v / 4096) as char, (0x80 + v / 64 % 64) as char, (0x80 + v % 64) as char]
  }

  /** How many hex digits follow \x and \u. */
  function HexDigits(e: char): nat {
    if e == 'x' then 2 else if e == 'u' then 4 else 0
  }

  /** The one-character escapes. */
  function Simple(e: char): string {
    match e
    case '\"' => "\""
    case '\\' => "\\"
    case '/' => "/"
    case 'n' => "\n"
    case 'r' => "\r"
    case 't' => "\t"
    case '0' => "\0"
    case _ => ""
  }

  /** A text read, and the position after it. */
  datatype Read = Read(text: string, next: nat)

  /** What one step of ReadQuoted() meets at s[p]: the end, more text, or a fault. */
  datatype Piece = Closed(next: nat) | More(text: string, next: nat) | Bad(fault: Fault)

  function PieceAt(s: string, p: nat, q: char): (r: Piece)
    requires p < |s|
    ensures r.More? ==> p < r.next <= |s|
    ensures r.Closed? ==> r.next == p + 1
  {
    var c := s[p];
    if c == q then
      if q == '\'' && p + 1 < |s| && s[p + 1] == '\'' then More("\'", p + 2) else Closed(p + 1)
    else if c != '\\' || q == '\'' then More([c], p + 1)
    else if p + 1 >= |s| then Bad(MissingQuote)
    else
      var e := s[p + 1];
      var n := HexDigits(e);
      if n == 0 then
        if Simple(e) == "" then Bad(UnknownEscape) else More(Simple(e), p + 2)
      else if p + 2 + n > |s| then Bad(ShortEscape)
      else
        var v := HexNumber(s, p + 2, n, 0);
        HexNumberBound(s, p + 2, n, 0);
        if v < 0 then Bad(BadHexDigit) else More(Utf8(v), p + 2 + n)
  }

  /** ReadQuoted() past the opening quote q. */
  function Unquoted(s: string, p: nat, q: char): (r: Result<Read>)
    ensures r.Ok? ==> p < r.value.next <= |s|
    decreases |s| - p
  {
    if p >= |s| then Err(MissingQuote)
    else
      match PieceAt(s, p, q)
      case Closed(next) => Ok(Read("", next))
      case Bad(fault) => Err(fault)
      case More(text, next) =>
        var rest := Unquoted(s, next, q);
        if rest.Ok? then Ok(Read(text + rest.value.text, rest.value.next)) else rest
  }

  /** `out`, then what `rest` reads. */
  function Prefixed(out: string, rest: Result<Read>): Result<Read> {
    if rest.Ok? then Ok(Read(out + rest.value.text, rest.value.next)) else rest
  }

  lemma PrefixedTwice(out: string, more: string, rest: Result<Read>)
    ensures Prefixed(out, Prefixed(more, rest)) == Prefixed(out + more, rest)
  {
    if rest.Ok? { assert out + (more + rest.value.text) == out + more + rest.value.text; }
  }

  method ReadQuoted(s: string, start: nat) returns (r: Result<Read>)
    requires start < |s|
    ensures r == Unquoted(s, start + 1, s[start])
  {
    var q, p, out := s[start], start + 1, "";
    NothingBefore(Unquoted(s, p, q));
    while p < |s|
      invariant start < p <= |s| && Unquoted(s, start + 1, q) == Prefixed(out, Unquoted(s, p, q))
      decreases |s| - p
    {
      var piece := ReadPiece(s, p, q);
      match piece {
        case Closed(next) =>
          assert out + "" == out;
          return Ok(Read(out, next));
        case Bad(fault) =>
          return Err(fault);
        case More(text, next) =>
          PrefixedTwice(out, text, Unquoted(s, next, q));
          out := out + text;
          p := next;
      }
    }
    return Err(MissingQuote);
  }

  lemma NothingBefore(rest: Result<Read>)
    ensures Prefixed("", rest) == rest
  {
    if rest.Ok? { assert "" + rest.value.text == rest.value.text; }
  }

  /** The body of the loop of ReadQuoted(). */
  method ReadPiece(s: string, at: nat, q: char) returns (r: Piece)
    requires at < |s|
    ensures r == PieceAt(s, at, q)
  {
    var c, p := s[at], at + 1;
    if c == q {
      if q == '\'' && p < |s| && s[p] == '\'' { return More("\'", p + 1); }
      return Closed(p);
    }
    if c != '\\' || q == '\'' { return More([c], p); }
    if p >= |s| { return Bad(MissingQuote); }
    var e := s[p];
    p := p + 1;
    var hexDigits := HexDigits(e);
    if hexDigits == 0 {
      if Simple(e) == "" { return Bad(UnknownEscape); }
      return More(Simple(e), p);
    }
    if p + hexDigits > |s| { return Bad(ShortEscape); }
    var v, i := 0, 0;
    while i < hexDigits
      invariant i <= hexDigits && p == at + 2 + i && v >= 0
      invariant HexNumber(s, at + 2, hexDigits, 0) == HexNumber(s, p, hexDigits - i, v)
    {
      var h := HexValue(s[p]);
      p := p + 1;
      if h < 0 { return Bad(BadHexDigit); }
      v := 16 * v + h;
      i := i + 1;
    }
    HexNumberBound(s, at + 2, hexDigits, 0);
    return More(Utf8(v), p);
  }

  // ---------------------------------------------------------------- parts of a text

  /** `part` stands in s at position p. */
  ghost predicate At(s: string, p: nat, part: string)
    decreases |part|
  {
    p <= |s| && (part != "" ==> p < |s| && s[p] == part[0] && At(s, p + 1, part[1..]))
  }

  lemma {:induction false} AtSplit(s: string, p: nat, a: string, b: string)
    requires At(s, p, a + b)
    ensures At(s, p, a) && At(s, p + |a|, b)
    decreases |a|
  {
    if a == "" {
      assert a + b == b;
    } else {
      assert (a + b)[1..] == a[1..] + b;
      AtSplit(s, p + 1, a[1..], b);
    }
  }

  lemma {:induction false} AtIndex(s: string, p: nat, part: string, k: nat)
    requires At(s, p, part) && k < |part|
    ensures p + k < |s| && s[p + k] == part[k]
    decreases k
  {
    if k > 0 { AtIndex(s, p + 1, part[1..], k - 1); }
  }

  lemma {:induction false} AtSlice(s: string, p: nat, part: string)
    requires p + |part| <= |s| && s[p..p + |part|] == part
    ensures At(s, p, part)
    decreases |part|
  {
    if part != "" {
      assert s[p] == s[p..p + |part|][0];
      assert s[p + 1..p + |part|] == s[p..p + |part|][1..];
      AtSlice(s, p + 1, part[1..]);
    }
  }

  lemma {:induction false} AtFits(s: string, p: nat, part: string)
    requires At(s, p, part)
    ensures p + |part| <= |s| && s[p..p + |part|] == part
    decreases |part|
  {
    if part != "" {
      AtFits(s, p + 1, part[1..]);
      assert s[p..p + |part|] == [s[p]] + s[p + 1..p + |part|];
    }
  }

  lemma AtEnd(before: string, part: string)
    ensures At(before + part, |before|, part)
  {
    assert (before + part)[|before|..|before| + |part|] == part;
    AtSlice(before + part, |before|, part);
  }

  lemma AtMiddle(before: string, part: string, after: string)
    ensures At(before + part + after, |before|, part)
  {
    AtSlice(before + part + after, |before|, part);
  }

  // ---------------------------------------------------------------- reading undoes quoting

  /** One escaped character is read back, wherever it stands. */
  lemma EscapeRead(s: string, p: nat, c: char)
    requires At(s, p, Escape(c))
    ensures PieceAt(s, p, '\"') == More([c], p + |Escape(c)|)
  {
    var e := Escape(c);
    AtIndex(s, p, e, 0);
    if |e| >= 2 { AtIndex(s, p, e, 1); }
    if |e| == 4 {
      AtIndex(s, p, e, 2);
      AtIndex(s, p, e, 3);
      HexRead(c as int / 16);
      HexRead(c as int % 16);
      assert HexNumber(s, p + 2, 2, 0) == c as int;
    }
  }

  lemma HexRead(d: nat)
    requires d < 16
    ensures HexValue(HEX[d]) == d
  {
  }

  /** For every string and whatever follows it: reading what YamlQuote() wrote gives the string back and stops right after
      the closing quote. */
  lemma ReadUndoesQuote(before: string, s: string, after: string)
    ensures ReadsTo(before + Quote(s) + after, |before| + 1, s, |before + Quote(s)|)
  {
    AtMiddle(before, Quote(s), after);
    UnquotedAt(before + Quote(s) + after, |before|, s);
  }

  lemma UnquotedAt(all: string, p: nat, s: string)
    requires At(all, p, Quote(s))
    ensures p < |all| && all[p] == '\"' && ReadsTo(all, p + 1, s, p + |Quote(s)|)
  {
    QuoteIs(s);
    TailRead(all, p, s, QuoteTail(s), p + |Quote(s)|);
  }

  lemma QuoteIs(s: string)
    ensures Same(Quote(s), "\"" + QuoteTail(s)) && |Quote(s)| == |QuoteTail(s)| + 1
  {
    QuoteTailIs(s);
    assert Quote(s) == "\"" + QuoteTail(s);
  }

  /** The opening quote, and what comes after it. */
  lemma TailRead(all: string, p: nat, s: string, tail: string, end: nat)
    requires At(all, p, "\"" + tail) && Same(tail, QuoteTail(s)) && end == p + 1 + |tail|
    ensures p < |all| && all[p] == '\"' && ReadsTo(all, p + 1, s, end)
  {
    QuoteFirst(all, p, tail);
    UnquotedTail(all, p + 1, s, end);
  }

  /** The escaped text and the closing quote. */
  function QuoteTail(s: string): string {
    if s == "" then "\"" else Escape(s[0]) + QuoteTail(s[1..])
  }

  lemma {:induction false} QuoteTailIs(s: string)
    ensures QuoteTail(s) == Escaped(s) + "\""
    decreases |s|
  {
    if s != "" {
      QuoteTailIs(s[1..]);
      assert Escape(s[0]) + (Escaped(s[1..]) + "\"") == Escape(s[0]) + Escaped(s[1..]) + "\"";
    }
  }

  lemma QuoteFirst(all: string, p: nat, rest: string)
    requires At(all, p, "\"" + rest)
    ensures p < |all| && all[p] == '\"' && At(all, p + 1, rest)
  {
    AtSplit(all, p, "\"", rest);
    AtIndex(all, p, "\"" + rest, 0);
  }

  /** Past an opening double quote at p, the text s and its closing quote are read, up to `end`. */
  ghost predicate ReadsTo(all: string, p: nat, s: string, end: nat) {
    var r := Unquoted(all, p, '\"');
    r.Ok? && Same(r.value.text, s) && r.value.next == end
  }

  lemma UnquotedMore(all: string, p: nat, s: string, next: nat, end: nat)
    requires s != "" && At(all, p, Escape(s[0])) && next == p + |Escape(s[0])| && ReadsTo(all, next, s[1..], end)
    ensures ReadsTo(all, p, s, end)
  {
    EscapeRead(all, p, s[0]);
    assert [s[0]] + s[1..] == s;
  }

  lemma {:induction false} UnquotedTail(all: string, p: nat, s: string, end: nat)
    requires At(all, p, QuoteTail(s)) && end == p + |QuoteTail(s)|
    ensures ReadsTo(all, p, s, end)
    decreases |s|
  {
    if s == "" {
      AtIndex(all, p, "\"", 0);
    } else {
      AtSplit(all, p, Escape(s[0]), QuoteTail(s[1..]));
      var next := p + |Escape(s[0])|;
      UnquotedTail(all, next, s[1..], end);
      UnquotedMore(all, p, s, next, end);
    }
  }
}
