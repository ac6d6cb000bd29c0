/** The block parser: maps and lists by indentation. First as functions on the lines still to come, which is where it
    terminates, then as the class that walks an array of lines and rewrites "- key: value" lines in place. */
module YamlParser {
  import opened YamlText
  import opened YamlLines
  import opened YamlInline

  /** A node, and the lines after it. */
  datatype Parsed = Parsed(node: Node, rest: seq<Line>)

  /** ParseNested(): the indented block below, or an empty scalar. */
  function ParseNested(lines: seq<Line>, parent: nat, sameIndentList: bool): (r: Result<Parsed>)
    ensures r.Ok? ==> |r.value.rest| <= |lines|
    decreases |lines|, 5
  {
    if IsNested(lines, parent, sameIndentList) then ParseBlock(lines, lines[0].indent)
    else Ok(Parsed(Scalar("", false), lines))
  }

  predicate IsNested(lines: seq<Line>, parent: nat, sameIndentList: bool) {
    lines != [] && (lines[0].indent > parent || (sameIndentList && lines[0].indent == parent && IsItem(lines[0].text)))
  }

  function ParseBlock(lines: seq<Line>, indent: nat): (r: Result<Parsed>)
    requires lines != []
    ensures r.Ok? ==> |r.value.rest| <= |lines|
    decreases |lines|, 4
  {
    if IsItem(lines[0].text) then ParseSeq(lines, indent, []) else ParseMap(lines, indent, [], [])
  }

  /** Where a block ends: at a line less indented, or at one of its own indent that is not one of its own. */
  function BlockEnd(node: Node, lines: seq<Line>, indent: nat): (r: Result<Parsed>)
    ensures r.Ok? ==> r.value.rest == lines
  {
    if lines != [] && lines[0].indent > indent then Err(UnexpectedIndent) else Ok(Parsed(node, lines))
  }

  /** The value of "key: rest". */
  function MapValue(rest: string, below: seq<Line>, indent: nat): (r: Result<Parsed>)
    ensures r.Ok? ==> |r.value.rest| <= |below|
    decreases |below|, 6
  {
    if Trim(rest) == "" then ParseNested(below, indent, true) else OnOneLine(ReadInline(rest), below)
  }

  function OnOneLine(node: Result<Node>, below: seq<Line>): (r: Result<Parsed>)
    ensures r.Ok? ==> r.value.rest == below
  {
    if node.Ok? then Ok(Parsed(node.value, below)) else Err(node.fault)
  }

  /** ParseMap(), with the keys and items read so far. */
  function ParseMap(lines: seq<Line>, indent: nat, keys: seq<string>, items: seq<Node>): (r: Result<Parsed>)
    ensures r.Ok? ==> |r.value.rest| <= |lines|
    ensures r.Ok? && lines != [] && lines[0].indent == indent ==> |r.value.rest| < |lines|
    decreases |lines|, 1
  {
    if lines == [] || lines[0].indent != indent then BlockEnd(Map(keys, items), lines, indent)
    else if IsItem(lines[0].text) then Err(ItemForKey)
    else
      match SplitKey(lines[0].text)
      case None => Err(ExpectedKey)
      case Some(s) =>
        if s.key in keys then Err(DuplicateKey)
        else
          match MapValue(s.rest, lines[1..], indent)
          case Err(fault) => Err(fault)
          case Ok(v) => ParseMap(v.rest, indent, keys + [s.key], items + [v.node])
  }

  /** How many characters of "- rest" come before the rest. */
  function ItemSkip(text: string): (n: nat)
    requires text != ""
    ensures 1 <= n <= |text|
  {
    SkipSpaces(text, 1)
  }

  /** One item of a list. A "- key: value" line becomes the first line of a map whose indent is that of the key. */
  function ParseItem(lines: seq<Line>, indent: nat): (r: Result<Parsed>)
    requires lines != [] && IsItem(lines[0].text)
    ensures r.Ok? ==> |r.value.rest| < |lines|
    decreases |lines|, 2
  {
    var skip := ItemSkip(lines[0].text);
    var rest := lines[0].text[skip..];
    if rest == "" then ParseNested(lines[1..], indent, false)
    else if IsItem(rest) then Err(NestedItems)
    else if SplitKey(rest).Some? then ParseMap([Line(indent + skip, rest)] + lines[1..], indent + skip, [], [])
    else OnOneLine(ReadInline(rest), lines[1..])
  }

  /** ParseSeq(), with the items read so far. */
  function ParseSeq(lines: seq<Line>, indent: nat, items: seq<Node>): (r: Result<Parsed>)
    ensures r.Ok? ==> |r.value.rest| <= |lines|
    decreases |lines|, 3
  {
    if lines == [] || lines[0].indent != indent || !IsItem(lines[0].text) then BlockEnd(Seq(items), lines, indent)
    else
      match ParseItem(lines, indent)
      case Err(fault) => Err(fault)
      case Ok(item) => ParseSeq(item.rest, indent, items + [item.node])
  }

  function ParseDocument(lines: seq<Line>): Result<Node> {
    if lines == [] then Ok(Map([], []))
    else if lines[0].indent != 0 then Err(FirstIndented)
    else
      match ParseBlock(lines, 0)
      case Err(fault) => Err(fault)
      case Ok(p) => if p.rest != [] then Err(UnexpectedIndent) else Ok(p.node)
  }

  /** ParseYaml(). */
  function ParseYaml(text: string): Result<Node> {
    match Split(text)
    case Err(fault) => Err(fault)
    case Ok(lines) => ParseDocument(lines)
  }

  // ---------------------------------------------------------------- the class

  /** What a method returned, from line `next` on, is what the functions say. */
  function Outcome(r: Result<Node>, rest: seq<Line>): Result<Parsed> {
    if r.Ok? then Ok(Parsed(r.value, rest)) else Err(r.fault)
  }

  class Parser {
    const lines: array<Line>

    constructor (lines: array<Line>)
      ensures this.lines == lines
    {
      this.lines := lines;
    }

    /** The lines still to come. */
    ghost function Tail(i: nat): seq<Line>
      requires i <= lines.Length
      reads lines
    {
      lines[i..]
    }

    method Nested(i: nat, parent: nat, sameIndentList: bool) returns (r: Result<Node>, next: nat)
      requires i <= lines.Length
      modifies lines
      ensures i <= next <= lines.Length
      ensures ParseNested(old(Tail(i)), parent, sameIndentList) == Outcome(r, Tail(next))
      decreases lines.Length - i, 6
    {
      if i < lines.Length
        && (lines[i].indent > parent || (sameIndentList && lines[i].indent == parent && IsItem(lines[i].text))) {
        r, next := Block(i, lines[i].indent);
      } else {
        return Ok(Scalar("", false)), i;
      }
    }

    method Block(i: nat, indent: nat) returns (r: Result<Node>, next: nat)
      requires i < lines.Length
      modifies lines
      ensures i <= next <= lines.Length
      ensures ParseBlock(old(Tail(i)), indent) == Outcome(r, Tail(next))
      decreases lines.Length - i, 5
    {
      if IsItem(lines[i].text) { r, next := List(i, indent); } else { r, next := Fields(i, indent); }
    }

    /** ParseMap(). */
    method Fields(start: nat, indent: nat) returns (r: Result<Node>, i: nat)
      requires start < lines.Length
      modifies lines
      ensures start <= i <= lines.Length
      ensures ParseMap(old(Tail(start)), indent, [], []) == Outcome(r, Tail(i))
      decreases lines.Length - start, 1
    {
      var keys: seq<string>, items: seq<Node> := [], [];
      i := start;
      while i < lines.Length && lines[i].indent == indent
        invariant start <= i <= lines.Length
        invariant ParseMap(old(Tail(start)), indent, [], []) == ParseMap(Tail(i), indent, keys, items)
        decreases lines.Length - i
      {
        if IsItem(lines[i].text) { return Err(ItemForKey), i; }
        var split := SplitKey(lines[i].text);
        if split.None? { return Err(ExpectedKey), i; }
        var key, rest := split.value.key, split.value.rest;
        if key in keys { return Err(DuplicateKey), i; }
        var value;
        value, i := Value(rest, i + 1, indent);
        if value.Err? { return Err(value.fault), i; }
        keys, items := keys + [key], items + [value.value];
      }
      if i < lines.Length && lines[i].indent > indent { return Err(UnexpectedIndent), i; }
      return Ok(Map(keys, items)), i;
    }

    /** The value of a key. */
    method Value(rest: string, i: nat, indent: nat) returns (r: Result<Node>, next: nat)
      requires i <= lines.Length
      modifies lines
      ensures i <= next <= lines.Length
      ensures MapValue(rest, old(Tail(i)), indent) == Outcome(r, Tail(next))
      decreases lines.Length - i, 7
    {
      if Trim(rest) == "" {
        r, next := Nested(i, indent, true);
      } else {
        return ReadInline(rest), i;
      }
    }

    /** ParseSeq(). */
    method List(start: nat, indent: nat) returns (r: Result<Node>, i: nat)
      requires start < lines.Length
      modifies lines
      ensures start <= i <= lines.Length
      ensures ParseSeq(old(Tail(start)), indent, []) == Outcome(r, Tail(i))
      decreases lines.Length - start, 4
    {
      var items: seq<Node> := [];
      i := start;
      while i < lines.Length && lines[i].indent == indent && IsItem(lines[i].text)
        invariant start <= i <= lines.Length
        invariant ParseSeq(old(Tail(start)), indent, []) == ParseSeq(Tail(i), indent, items)
        decreases lines.Length - i
      {
        var item;
        item, i := ListItem(i, indent);
        if item.Err? { return Err(item.fault), i; }
        items := items + [item.value];
      }
      if i < lines.Length && lines[i].indent > indent { return Err(UnexpectedIndent), i; }
      return Ok(Seq(items)), i;
    }

    /** The body of the loop of ParseSeq(), which rewrites the line before it reads a map. */
    method ListItem(i: nat, indent: nat) returns (r: Result<Node>, next: nat)
      requires i < lines.Length && IsItem(lines[i].text)
      modifies lines
      ensures i <= next <= lines.Length && (r.Ok? ==> i < next)
      ensures ParseItem(old(Tail(i)), indent) == Outcome(r, Tail(next))
      decreases lines.Length - i, 3
    {
      var text := lines[i].text;
      var skip := ItemSkip(text);
      var rest := text[skip..];
      if rest == "" {
        r, next := Nested(i + 1, indent, false);
      } else if IsItem(rest) {
        return Err(NestedItems), i;
      } else if SplitKey(rest).Some? {
        r, next := ItemMap(i, indent + skip, rest);
      } else {
        return ReadInline(rest), i + 1;
      }
    }

    /** A map that begins on an item's line, parsed from the line without its dash. */
    method ItemMap(i: nat, indent: nat, rest: string) returns (r: Result<Node>, next: nat)
      requires i < lines.Length
      modifies lines
      ensures i <= next <= lines.Length && (r.Ok? ==> i < next)
      ensures ParseMap([Line(indent, rest)] + old(Tail(i))[1..], indent, [], []) == Outcome(r, Tail(next))
      decreases lines.Length - i, 2
    {
      ghost var below := Tail(i)[1..];
      lines[i] := Line(indent, rest);
      assert Tail(i) == [Line(indent, rest)] + below;
      r, next := Fields(i, indent);
      if r.Ok? { Consumed([Line(indent, rest)] + below, indent, Tail(next)); }
    }
  }

  /** A map takes at least the line it begins with. */
  lemma Consumed(lines: seq<Line>, indent: nat, rest: seq<Line>)
    requires lines != [] && lines[0].indent == indent && ParseMap(lines, indent, [], []).Ok?
    requires ParseMap(lines, indent, [], []).value.rest == rest
    ensures |rest| < |lines|
  {
  }

  /** ParseDocument() and ParseYaml(), on the array the parser owns. */
  method ParseText(text: string) returns (r: Result<Node>)
    ensures r == ParseYaml(text)
  {
    var split := SplitLines(text);
    if split.Err? { return Err(split.fault); }
    var all := split.value;
    if all == [] { return Ok(Map([], [])); }
    if all[0].indent != 0 { return Err(FirstIndented); }
    var lines := new Line[|all|](i requires 0 <= i < |all| => all[i]);
    assert lines[..] == all;
    var parser := new Parser(lines);
    var i;
    r, i := parser.Block(0, 0);
    if r.Ok? && i < lines.Length { return Err(UnexpectedIndent); }
  }
}
