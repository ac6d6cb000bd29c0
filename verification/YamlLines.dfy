/** Splitting a text into meaningful lines: comments cut, blank lines dropped, indents counted. */
module YamlLines {
  import opened Sequences
  import opened YamlText

  datatype Line = Line(indent: nat, text: string)

  predicate IsQuote(c: char) {
    c == '\"' || c == '\''
  }

  /** A quote after one of these opens a quoted scalar. */
  predicate Opens(c: char) {
    c == ' ' || c == '[' || c == ',' || c == ':' || c == '-'
  }

  const NONE := '\0'

  /** Where the comment of a raw line begins (its end if there is none): the scan stands at k, inside the quotes `quote`
      or outside (NONE). */
  function Cut(raw: string, k: nat, quote: char): (cut: nat)
    ensures cut <= |raw|
    decreases |raw| - k
  {
    if k >= |raw| then |raw|
    else if quote != NONE then
      if quote == '\"' && raw[k] == '\\' then Cut(raw, k + 2, quote)
      else if quote == '\'' && raw[k] == '\'' && k + 1 < |raw| && raw[k + 1] == '\'' then Cut(raw, k + 2, quote)
      else Cut(raw, k + 1, if raw[k] == quote then NONE else quote)
    else if IsQuote(raw[k]) then Cut(raw, k + 1, if k == 0 || Opens(raw[k - 1]) then raw[k] else NONE)
    else if raw[k] == '#' && (k == 0 || IsBlank(raw[k - 1])) then k
    else Cut(raw, k + 1, NONE)
  }

  /** c three times over. */
  predicate Thrice(s: string, c: char) {
    |s| == 3 && s[0] == c && s[1] == c && s[2] == c
  }

  /** What a raw line is. */
  datatype Meaning = Skip | Take(line: Line) | Refuse(fault: Fault)

  function WithoutReturn(raw: string): string {
    if raw != "" && raw[|raw| - 1] == '\r' then raw[..|raw| - 1] else raw
  }

  /** A raw line without its comment, after `indent` spaces. */
  function Body(kept: string, indent: nat, first: bool): Meaning
    requires indent <= |kept|
    decreases |kept| - indent
  {
    if indent < |kept| && kept[indent] == ' ' then Body(kept, indent + 1, first)
    else
      var body := Trim(kept[indent..]);
      if body == "" then Skip
      else if indent < |kept| && kept[indent] == '\t' then Refuse(TabIndent)
      else if Thrice(body, '-') && indent == 0 && first then Skip
      else if Thrice(body, '-') || Thrice(body, '.') then Refuse(SecondDocument)
      else Take(Line(indent, body))
  }

  function Meant(line: string, first: bool): Meaning {
    var raw := WithoutReturn(line);
    Body(raw[..Cut(raw, 0, NONE)], 0, first)
  }

  /** The first newline of a text, or its end. */
  function LineEnd(text: string): (end: nat)
    ensures end <= |text| && (end < |text| ==> text[end] == '\n')
  {
    if text == "" || text[0] == '\n' then 0 else 1 + LineEnd(text[1..])
  }

  /** What is still to come, behind the lines found. */
  function Behind(lines: seq<Line>, rest: Result<seq<Line>>): Result<seq<Line>> {
    if rest.Ok? then Ok(lines + rest.value) else rest
  }

  /** A line of that meaning, then the rest. */
  function Followed(m: Meaning, rest: Result<seq<Line>>): Result<seq<Line>> {
    match m
    case Refuse(fault) => Err(fault)
    case Skip => rest
    case Take(line) => Behind([line], rest)
  }

  /** The meaningful lines of a text; `first` while there is none before. */
  function LinesOf(text: string, first: bool): Result<seq<Line>>
    decreases |text|
  {
    var end := LineEnd(text);
    var m := Meant(text[..end], first);
    Followed(m, if end == |text| then Ok([]) else LinesOf(text[end + 1..], first && m.Skip?))
  }

  function WithoutBom(text: string): string {
    if |text| >= 3 && text[0] as int == 0xEF && text[1] as int == 0xBB && text[2] as int == 0xBF then text[3..] else text
  }

  /** SplitLines(). */
  function Split(text: string): Result<seq<Line>> {
    LinesOf(WithoutBom(text), true)
  }

  // ---------------------------------------------------------------- the loops

  /** The comment scan of SplitLines(). */
  method FindCut(raw: string) returns (cut: nat)
    ensures cut == Cut(raw, 0, NONE)
  {
    var quote, k := NONE, 0;
    while k < |raw|
      invariant Cut(raw, 0, NONE) == Cut(raw, k, quote)
      decreases |raw| - k
    {
      var c := raw[k];
      if quote != NONE {
        if quote == '\"' && c == '\\' { k := k + 1; }
        else if quote == '\'' && c == '\'' && k + 1 < |raw| && raw[k + 1] == '\'' { k := k + 1; }
        else if c == quote { quote := NONE; }
      } else if c == '\"' || c == '\'' {
        if k == 0 || Opens(raw[k - 1]) { quote := c; }
      } else if c == '#' && (k == 0 || raw[k - 1] == ' ' || raw[k - 1] == '\t') {
        return k;
      }
      k := k + 1;
    }
    return |raw|;
  }

  method ReadLine(line: string, first: bool) returns (m: Meaning)
    ensures m == Meant(line, first)
  {
    var raw := line;
    if raw != "" && raw[|raw| - 1] == '\r' { raw := raw[..|raw| - 1]; }
    var cut := FindCut(raw);
    raw := raw[..cut];
    var indent := 0;
    while indent < |raw| && raw[indent] == ' '
      invariant indent <= |raw| && Body(raw, 0, first) == Body(raw, indent, first)
    {
      indent := indent + 1;
    }
    var body := Trim(raw[indent..]);
    if body == "" { return Skip; }
    if indent < |raw| && raw[indent] == '\t' { return Refuse(TabIndent); }
    if Thrice(body, '-') && indent == 0 && first { return Skip; }
    if Thrice(body, '-') || Thrice(body, '.') { return Refuse(SecondDocument); }
    return Take(Line(indent, body));
  }

  method SplitLines(text: string) returns (r: Result<seq<Line>>)
    ensures r == Split(text)
  {
    if |text| >= 3 && text[0] as int == 0xEF && text[1] as int == 0xBB && text[2] as int == 0xBF {
      r := CollectLines(text[3..]);
    } else {
      r := CollectLines(text);
    }
  }

  /** The loop of SplitLines(). */
  method CollectLines(text: string) returns (r: Result<seq<Line>>)
    ensures r == LinesOf(text, true)
  {
    var lines: seq<Line>, start := [], 0;
    assert text[0..] == text;
    BehindNothing(LinesOf(text, true));
    while start <= |text|
      invariant start <= |text| + 1 && Reached(text, lines, start) == LinesOf(text, true)
      decreases |text| + 1 - start
    {
      var m;
      m, start := NextLine(text, lines, start);
      match m {
        case Skip =>
        case Refuse(fault) => return Err(fault);
        case Take(line) => lines := lines + [line];
      }
    }
    assert lines + [] == lines;
    return Ok(lines);
  }

  /** One line of the text. */
  method NextLine(text: string, lines: seq<Line>, start: nat) returns (m: Meaning, next: nat)
    requires start <= |text|
    ensures start < next <= |text| + 1
    ensures m.Refuse? ==> Same(Reached(text, lines, start), Err(m.fault))
    ensures m.Skip? ==> Same(Reached(text, lines, next), Reached(text, lines, start))
    ensures m.Take? ==> Same(Reached(text, lines + [m.line], next), Reached(text, lines, start))
  {
    var end := FindLineEnd(text, start);
    m := ReadLine(text[start..end], |lines| == 0);
    next := end + 1;
    ReachedNext(text, lines, start, end, m);
  }

  /** These lines, then those from `start` on. */
  ghost function Reached(text: string, lines: seq<Line>, start: nat): Result<seq<Line>>
    requires start <= |text| + 1
  {
    Behind(lines, if start > |text| then Ok([]) else LinesOf(text[start..], |lines| == 0))
  }

  lemma ReachedNext(text: string, lines: seq<Line>, start: nat, end: nat, m: Meaning)
    requires start <= |text| && end == start + LineEnd(text[start..]) && m == Meant(text[start..end], |lines| == 0)
    ensures m.Refuse? ==> Same(Reached(text, lines, start), Err(m.fault))
    ensures m.Skip? ==> Same(Reached(text, lines, end + 1), Reached(text, lines, start))
    ensures m.Take? ==> Same(Reached(text, lines + [m.line], end + 1), Reached(text, lines, start))
  {
    assert text[start..][..end - start] == text[start..end];
    if end < |text| { assert text[start..][end - start + 1..] == text[end + 1..]; }
    if m.Take? {
      BehindTwice(lines, m.line, if end == |text| then Ok([]) else LinesOf(text[end + 1..], false));
    }
  }

  method FindLineEnd(text: string, start: nat) returns (end: nat)
    requires start <= |text|
    ensures start <= end <= |text| && end == start + LineEnd(text[start..])
  {
    end := start;
    while end < |text| && text[end] != '\n'
      invariant start <= end <= |text| && start + LineEnd(text[start..]) == end + LineEnd(text[end..])
    {
      assert text[end..][1..] == text[end + 1..];
      end := end + 1;
    }
  }

  lemma BehindNothing(rest: Result<seq<Line>>)
    ensures Behind([], rest) == rest
  {
    if rest.Ok? { assert [] + rest.value == rest.value; }
  }

  lemma BehindTwice(lines: seq<Line>, line: Line, rest: Result<seq<Line>>)
    ensures Behind(lines, Behind([line], rest)) == Behind(lines + [line], rest)
  {
    if rest.Ok? { assert lines + ([line] + rest.value) == lines + [line] + rest.value; }
  }
}
