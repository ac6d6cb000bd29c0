/** Parsing what YamlPrint lays out gives the document back. */
module YamlRoundTrip {
  import opened Sequences
  import opened YamlText
  import opened YamlLines
  import opened YamlInline
  import opened YamlParser
  import opened YamlRender
  import opened YamlPrint

  // ---------------------------------------------------------------- keys

  lemma {:induction false} KeyEndAt(key: string, rest: string, i: nat)
    requires i <= |key| && (forall k :: 0 <= k < |key| ==> key[k] != ':')
    requires rest == "" || IsBlank(rest[0])
    ensures KeyEnd(key + ":" + rest, i) == |key|
    decreases |key| - i
  {
    var text := key + ":" + rest;
    if i < |key| {
      assert text[i] == key[i];
      KeyEndAt(key, rest, i + 1);
    } else if rest != "" {
      assert text[|key| + 1] == rest[0];
    }
  }

  lemma TrimNothing(s: string)
    requires Trimmed(s)
    ensures Trim(s) == s
  {
  }

  lemma TrimSpace(s: string)
    requires Trimmed(s)
    ensures Trim(" " + s) == s
  {
    assert (" " + s)[1..] == s;
    assert TrimLeft(" " + s) == TrimLeft(s);
    TrimNothing(s);
  }

  /** "key: rest" and "key:" split at the colon. */
  lemma SplitsKey(key: string, rest: string)
    requires GoodKey(key) && (rest == "" || IsBlank(rest[0]))
    ensures SplitKey(key + ":" + rest) == Some(KeyValue(key, rest)) && !IsItem(key + ":" + rest)
  {
    var text := key + ":" + rest;
    KeyEndAt(key, rest, 0);
    assert text[0] == key[0];
    assert text[..|key|] == key && text[|key| + 1..] == rest;
    TrimNothing(key);
  }

  // ---------------------------------------------------------------- values on one line

  lemma WordTrimmed(w: string)
    requires GoodWord(w)
    ensures Trimmed(w)
  {
  }

  lemma ReadsWord(w: string)
    requires GoodWord(w)
    ensures ReadInline(" " + w) == Ok(Scalar(w, false))
  {
    TrimSpace(w);
    TrimNothing(w);
  }

  lemma QuoteTrimmed(s: string)
    ensures Trimmed(Quote(s))
  {
  }

  lemma QuotedScalar(s: string)
    ensures ReadQuotedScalar(Quote(s)) == Ok(Scalar(s, true))
  {
    var q := Quote(s);
    AtSlice(q, 0, q);
    UnquotedAt(q, 0, s);
    assert q[|q|..] == "";
  }

  lemma ReadsQuoted(s: string)
    ensures ReadInline(" " + Quote(s)) == Ok(Scalar(s, true))
  {
    TrimSpace(Quote(s));
    TrimNothing(Quote(s));
    QuotedScalar(s);
  }

  /** The nodes of the parts of a flow list. */
  function PartNodes(parts: seq<Doc>): (nodes: seq<Node>)
    ensures |nodes| == |parts|
  {
    if parts == [] then [] else [NodeOf(parts[0])] + PartNodes(parts[1..])
  }

  predicate GoodParts(parts: seq<Doc>) {
    forall k :: 0 <= k < |parts| ==> GoodScalar(parts[k])
  }

  lemma {:induction false} PlainEndAt(s: string, p: nat, w: string)
    requires At(s, p, w) && p + |w| < |s| && (s[p + |w|] == ',' || s[p + |w|] == ']') && p <= |s|
    requires forall k :: 0 <= k < |w| ==> IsWordChar(w[k])
    ensures PlainEnd(s, p) == p + |w|
    decreases |w|
  {
    if w != "" { PlainEndAt(s, p + 1, w[1..]); }
  }

  /** The list item at p is the given one, and ends at `end`. */
  ghost predicate GivesItem(s: string, p: nat, node: Node, end: nat)
    requires p < |s|
  {
    var r := ItemAt(s, p);
    r.Ok? && Same(r.value.node, node) && r.value.next == end
  }

  /** The list items from p on are the given ones, one being expected, and end at `end`. */
  ghost predicate GivesItems(s: string, p: nat, first: bool, nodes: seq<Node>, end: nat)
    requires p <= |s|
  {
    var r := FlowFrom(s, p, true, first);
    r.Ok? && Same(r.value.nodes, nodes) && r.value.next == end
  }

  lemma QuotedItem(s: string, p: nat, text: string, end: nat)
    requires p < |s| && s[p] == '\"' && ReadsTo(s, p + 1, text, end)
    ensures GivesItem(s, p, Scalar(text, true), end)
  {
  }

  /** One part of a flow list is read, up to the comma or bracket after it. */
  lemma ItemRead(s: string, p: nat, part: Doc, end: nat)
    requires GoodScalar(part) && At(s, p, TokText(ScalarTok(part))) && end == p + |TokText(ScalarTok(part))|
    requires end < |s| && (s[end] == ',' || s[end] == ']')
    ensures p < |s| && s[p] != ' ' && s[p] != ']' && GivesItem(s, p, NodeOf(part), end)
  {
    if part.Str? {
      UnquotedAt(s, p, part.text);
      QuotedItem(s, p, part.text, end);
    } else {
      WordRead(s, p, part.word, end);
    }
  }

  lemma WordRead(s: string, p: nat, w: string, end: nat)
    requires GoodWord(w) && At(s, p, w) && end == p + |w| < |s| && (s[end] == ',' || s[end] == ']')
    ensures p < |s| && IsWordChar(s[p]) && GivesItem(s, p, Scalar(w, false), end)
  {
    AtIndex(s, p, w, 0);
    PlainEndAt(s, p, w);
    AtFits(s, p, w);
    WordTrimmed(w);
    TrimNothing(w);
  }

  lemma FlowSkipsSpace(s: string, p: nat, expectItem: bool, first: bool)
    requires p < |s| && s[p] == ' '
    ensures Same(FlowFrom(s, p, expectItem, first), FlowFrom(s, p + 1, expectItem, first))
  {
  }

  /** The parts of a flow list and its closing bracket are read. */
  lemma {:induction false} FlowRead(s: string, p: nat, parts: seq<Doc>, first: bool, end: nat)
    requires parts != [] && GoodParts(parts) && At(s, p, Text(FlowToks(parts)) + "]")
    requires end == p + |Text(FlowToks(parts))| + 1
    ensures p <= |s| && GivesItems(s, p, first, PartNodes(parts), end)
    decreases |parts|
  {
    if |parts| == 1 {
      OneFlowRead(s, p, parts, first, end);
    } else {
      var e := p + |TokText(ScalarTok(parts[0]))|;
      MoreFlowParts(s, p, parts, e);
      FlowRead(s, e + 2, parts[1..], false, end);
      PartAndMore(s, p, parts[0], first, e, PartNodes(parts[1..]), end);
    }
  }

  /** A part, and the parts read behind it. */
  lemma PartAndMore(s: string, p: nat, part: Doc, first: bool, e: nat, more: seq<Node>, end: nat)
    requires p < |s| && s[p] != ' ' && s[p] != ']' && GivesItem(s, p, NodeOf(part), e)
    requires e + 1 < |s| && s[e] == ',' && s[e + 1] == ' ' && GivesItems(s, e + 2, false, more, end)
    ensures GivesItems(s, p, first, [NodeOf(part)] + more, end)
  {
    FlowSkipsSpace(s, e + 1, true, false);
    OnePart(s, p, part, first, e);
    GivesMore(FlowFrom(s, p, true, first), NodeOf(part), FlowFrom(s, e + 2, true, false), more);
  }

  lemma GivesMore(whole: Result<Items>, node: Node, rest: Result<Items>, more: seq<Node>)
    requires Same(whole, Before([node], rest)) && rest.Ok? && Same(rest.value.nodes, more)
    ensures whole.Ok? && Same(whole.value.nodes, [node] + more) && whole.value.next == rest.value.next
  {
  }

  lemma OneFlowRead(s: string, p: nat, parts: seq<Doc>, first: bool, end: nat)
    requires |parts| == 1 && GoodParts(parts) && At(s, p, Text(FlowToks(parts)) + "]")
    requires end == p + |Text(FlowToks(parts))| + 1
    ensures p <= |s| && GivesItems(s, p, first, PartNodes(parts), end)
  {
    OneFlowPart(s, p, parts, end - 1);
    LastPart(s, p, parts[0], first, end - 1);
    assert parts[1..] == [];
  }

  lemma OneFlowPart(s: string, p: nat, parts: seq<Doc>, e: nat)
    requires |parts| == 1 && GoodParts(parts) && At(s, p, Text(FlowToks(parts)) + "]")
    requires e == p + |Text(FlowToks(parts))|
    ensures p < |s| && s[p] != ' ' && s[p] != ']' && GivesItem(s, p, NodeOf(parts[0]), e) && e < |s| && s[e] == ']'
  {
    OneFlowText(parts);
    AtSplit(s, p, TokText(ScalarTok(parts[0])), "]");
    AtIndex(s, e, "]", 0);
    ItemRead(s, p, parts[0], e);
  }

  lemma OneFlowText(parts: seq<Doc>)
    requires |parts| == 1
    ensures Same(Text(FlowToks(parts)), TokText(ScalarTok(parts[0])))
  {
    TextOfOne(ScalarTok(parts[0]));
    assert FlowToks(parts) == [ScalarTok(parts[0])];
  }

  lemma MoreFlowParts(s: string, p: nat, parts: seq<Doc>, e: nat)
    requires |parts| > 1 && GoodParts(parts) && At(s, p, Text(FlowToks(parts)) + "]")
    requires e == p + |TokText(ScalarTok(parts[0]))|
    ensures p < |s| && s[p] != ' ' && s[p] != ']' && GivesItem(s, p, NodeOf(parts[0]), e)
    ensures e + 1 < |s| && s[e] == ',' && s[e + 1] == ' ' && At(s, e + 2, Text(FlowToks(parts[1..])) + "]")
    ensures p + |Text(FlowToks(parts))| == e + 2 + |Text(FlowToks(parts[1..]))|
  {
    FlowTextIs(parts);
    CommaAt(s, p, TokText(ScalarTok(parts[0])), Text(FlowToks(parts[1..])) + "]", e);
    ItemRead(s, p, parts[0], e);
  }

  lemma CommaAt(s: string, p: nat, t: string, more: string, e: nat)
    requires At(s, p, t + (", " + more)) && e == p + |t|
    ensures At(s, p, t) && e + 1 < |s| && s[e] == ',' && s[e + 1] == ' ' && At(s, e + 2, more)
  {
    AtSplit(s, p, t, ", " + more);
    AtIndex(s, e, ", " + more, 0);
    AtIndex(s, e, ", " + more, 1);
    AtSplit(s, e, ", ", more);
  }

  lemma FlowTextIs(parts: seq<Doc>)
    requires |parts| > 1
    ensures Same(Text(FlowToks(parts)) + "]",
                 TokText(ScalarTok(parts[0])) + (", " + (Text(FlowToks(parts[1..])) + "]")))
  {
    FlowToksSplit(parts);
    CommaApart(ScalarTok(parts[0]), FlowToks(parts[1..]));
  }

  lemma FlowToksSplit(parts: seq<Doc>)
    requires |parts| > 1
    ensures Same(FlowToks(parts), [ScalarTok(parts[0])] + ([Plain(", ")] + FlowToks(parts[1..])))
  {
  }

  lemma CommaApart(t: Tok, toks: seq<Tok>)
    ensures Same(Text([t] + ([Plain(", ")] + toks)) + "]", TokText(t) + (", " + (Text(toks) + "]")))
  {
    FirstTok(t, [Plain(", ")] + toks);
    FirstTok(Plain(", "), toks);
    LastApart(TokText(t), ", ", Text(toks), "]");
  }

  lemma FirstTok(t: Tok, toks: seq<Tok>)
    ensures Same(Text([t] + toks), TokText(t) + Text(toks))
  {
    assert ([t] + toks)[1..] == toks;
  }

  lemma LastApart(a: string, b: string, c: string, d: string)
    ensures Same(a + (b + c) + d, a + (b + (c + d)))
  {
    assert a + (b + c) + d == a + (b + (c + d));
  }

  /** A part with a comma after it. */
  lemma OnePart(s: string, p: nat, part: Doc, first: bool, end: nat)
    requires p < |s| && s[p] != ' ' && s[p] != ']' && GivesItem(s, p, NodeOf(part), end)
    requires end < |s| && s[end] == ','
    ensures Same(FlowFrom(s, p, true, first), Before([NodeOf(part)], FlowFrom(s, end + 1, true, false)))
  {
  }

  /** The last part. */
  lemma LastPart(s: string, p: nat, part: Doc, first: bool, end: nat)
    requires p < |s| && s[p] != ' ' && s[p] != ']' && GivesItem(s, p, NodeOf(part), end)
    requires end < |s| && s[end] == ']'
    ensures GivesItems(s, p, first, [NodeOf(part)] + [], end + 1)
  {
    assert FlowFrom(s, end, false, false) == Ok(Items([], end + 1));
  }

  lemma FlowText(parts: seq<Doc>)
    ensures Text([Plain("[")] + FlowToks(parts) + [Plain("]")]) == "[" + Text(FlowToks(parts)) + "]"
  {
    var toks := FlowToks(parts);
    assert ([Plain("[")] + toks + [Plain("]")])[1..] == toks + [Plain("]")];
    TextJoin(toks, [Plain("]")]);
    assert Text([Plain("]")]) == "]" by { assert [Plain("]")][1..] == []; }
    assert "[" + (Text(toks) + "]") == "[" + Text(toks) + "]";
  }

  lemma {:induction false} TextJoin(a: seq<Tok>, b: seq<Tok>)
    ensures Text(a + b) == Text(a) + Text(b)
    decreases |a|
  {
    if a == [] {
      assert a + b == b;
    } else {
      assert (a + b)[1..] == a[1..] + b;
      TextJoin(a[1..], b);
      assert TokText(a[0]) + (Text(a[1..]) + Text(b)) == TokText(a[0]) + Text(a[1..]) + Text(b);
    }
  }

  lemma ReadsFlow(parts: seq<Doc>)
    requires GoodParts(parts)
    ensures ReadInline(" " + ("[" + Text(FlowToks(parts)) + "]")) == Ok(Seq(PartNodes(parts)))
  {
    var t := "[" + Text(FlowToks(parts)) + "]";
    TrimSpace(t);
    if parts == [] {
      assert t == "[]";
      assert t[2..] == "";
    } else {
      PartsRead(parts, t);
      assert t[|t|..] == "";
    }
  }

  lemma PartsRead(parts: seq<Doc>, t: string)
    requires parts != [] && GoodParts(parts) && t == "[" + Text(FlowToks(parts)) + "]"
    ensures GivesItems(t, 1, true, PartNodes(parts), |t|)
  {
    var body := Text(FlowToks(parts)) + "]";
    AtEnd("[", body);
    assert t == "[" + body;
    FlowRead(t, 1, parts, true, |t|);
  }

  // ---------------------------------------------------------------- lines of a map

  lemma TextOfOne(t: Tok)
    ensures Text([t]) == TokText(t)
  {
    assert [t][1..] == [];
    assert TokText(t) + "" == TokText(t);
  }

  /** The text of a value on its key's line. */
  function InlineText(d: Doc): string {
    Text(InlineToks(d))
  }

  lemma InlineTextIs(d: Doc)
    requires GoodInline(d)
    ensures InlineText(d) == if d.Flow? then "[" + Text(FlowToks(d.parts)) + "]" else TokText(ScalarTok(d))
    ensures InlineText(d) != "" && Trimmed(InlineText(d))
  {
    if d.Flow? {
      FlowText(d.parts);
    } else {
      TextOfOne(ScalarTok(d));
      if d.Word? { WordTrimmed(d.word); } else { QuoteTrimmed(d.text); }
    }
  }

  /** A value read back from its key's line. */
  lemma InlineRead(d: Doc)
    requires GoodInline(d)
    ensures Same(ReadInline(" " + InlineText(d)), Ok(NodeOf(d))) && Trim(" " + InlineText(d)) != ""
  {
    InlineTextIs(d);
    TrimSpace(InlineText(d));
    match d
    case Word(w) => ReadsWord(w);
    case Str(s) => ReadsQuoted(s);
    case Flow(parts) =>
      ReadsFlow(parts);
      FlowNode(d, parts);
  }

  lemma FlowNode(d: Doc, parts: seq<Doc>)
    requires d == Flow(parts)
    ensures Same(NodeOf(d), Seq(PartNodes(parts)))
  {
    PartsAreNodes(d, 0, parts);
    assert parts[0..] == parts;
  }

  lemma {:induction false} PartsAreNodes(d: Doc, k: nat, parts: seq<Doc>)
    requires k <= |parts| && forall i :: 0 <= i < |parts| ==> parts[i] < d
    ensures NodesFrom(d, k, parts) == PartNodes(parts[k..])
    decreases |parts| - k
  {
    if k < |parts| {
      PartsAreNodes(d, k + 1, parts);
      assert parts[k..][1..] == parts[k + 1..];
    }
  }

  lemma {:induction false} CommentsCarryNothing(lines: seq<string>)
    ensures Lines(Comments(lines)) == []
    decreases |lines|
  {
    if lines != [] { CommentsCarryNothing(lines[1..]); }
  }

  /** The text of entry k's line. */
  function KeyText(d: Doc, k: nat): string
    requires Shaped(d) && k < |d.keys|
  {
    d.keys[k] + ":" + if GoodInline(d.values[k]) then " " + InlineText(d.values[k]) else ""
  }

  lemma KeyLineText(d: Doc, k: nat, indent: nat)
    requires Shaped(d) && k < |d.keys|
    ensures KeyLine(d, k, indent).indent == indent && Text(KeyLine(d, k, indent).toks) == KeyText(d, k)
  {
    var key := d.keys[k];
    if GoodInline(d.values[k]) {
      KeyAndToks(key, InlineToks(d.values[k]));
    } else {
      TextOfOne(Plain(key + ":"));
      assert key + ":" + "" == key + ":";
    }
  }

  lemma KeyAndToks(key: string, toks: seq<Tok>)
    ensures Text([Plain(key + ": ")] + toks) == key + ":" + (" " + Text(toks))
  {
    assert ([Plain(key + ": ")] + toks)[1..] == toks;
    assert key + ": " + Text(toks) == key + ":" + (" " + Text(toks));
  }

  /** The lines of a map's entries from number k on. */
  function FieldLines(d: Doc, k: nat, indent: nat): seq<Line>
    requires Shaped(d) && GoodBlock(d) && k <= |d.keys|
  {
    Lines(PrintFields(d, k, indent))
  }

  lemma FieldLinesIs(d: Doc, k: nat, indent: nat)
    requires Shaped(d) && GoodBlock(d) && k < |d.keys|
    ensures FieldLines(d, k, indent) ==
            [Line(indent, KeyText(d, k))] + (Lines(Below(d, k, indent)) + FieldLines(d, k + 1, indent))
  {
    FieldsPrinted(d, k, indent);
    var tail := Below(d, k, indent) + PrintFields(d, k + 1, indent);
    var line := KeyLine(d, k, indent);
    LinesJoin(Comments(d.notes[k].before), [line] + tail);
    CommentsCarryNothing(d.notes[k].before);
    assert ([line] + tail)[1..] == tail;
    LinesJoin(Below(d, k, indent), PrintFields(d, k + 1, indent));
    KeyLineText(d, k, indent);
  }

  /** The lines of a list item: those of its map, with a dash before the first. */
  lemma RowLinesIs(d: Doc, k: nat, indent: nat)
    requires d.Rows? && GoodBlock(d) && k < |d.rows|
    ensures GoodRow(d, k)
    ensures var own := FieldLines(d.rows[k], 0, indent + 2);
            && own != [] && own[0] == Line(indent + 2, KeyText(d.rows[k], 0))
            && Lines(PrintRows(d, k, indent)) ==
               [Line(indent, "- " + own[0].text)] + (own[1..] + Lines(PrintRows(d, k + 1, indent)))
  {
    assert GoodRow(d, k);
    var row := d.rows[k];
    var ps := PrintFields(row, 0, indent + 2);
    FieldLinesIs(row, 0, indent + 2);
    FirstPrinted(row, indent + 2);
    KeyLineText(row, 0, indent + 2);
    DashedLines(ps, indent, PrintRows(d, k + 1, indent));
  }

  lemma FirstPrinted(row: Doc, indent: nat)
    requires Shaped(row) && GoodBlock(row) && row.notes[0].before == []
    ensures var ps := PrintFields(row, 0, indent); ps != [] && ps[0] == KeyLine(row, 0, indent)
  {
  }

  lemma DashedLines(ps: seq<Printed>, indent: nat, after: seq<Printed>)
    requires ps != [] && ps[0].Entry?
    ensures var own := Lines(ps);
            && own != [] && own[0].text == Text(ps[0].toks)
            && Lines(Dashed(ps, indent) + after) == [Line(indent, "- " + own[0].text)] + (own[1..] + Lines(after))
  {
    var toks := [Plain("- ")] + ps[0].toks;
    assert toks[1..] == ps[0].toks;
    var dashed := Dashed(ps, indent);
    assert dashed[1..] == ps[1..];
    LinesJoin(dashed, after);
    var own := Lines(ps);
    assert own[1..] == Lines(ps[1..]);
    assert Lines(dashed) == [Line(indent, "- " + own[0].text)] + own[1..];
    Regroup([Line(indent, "- " + own[0].text)], own[1..], Lines(after));
  }

  // ---------------------------------------------------------------- parsing

  /** The lines after a block are less indented. */
  predicate Outside(rest: seq<Line>, indent: nat) {
    rest != [] ==> rest[0].indent < indent
  }

  lemma {:induction false} NodesSlice(d: Doc, k: nat, parts: seq<Doc>)
    requires k < |parts| && forall i :: 0 <= i < |parts| ==> parts[i] < d
    ensures NodesFrom(d, 0, parts)[..k] + [NodeOf(parts[k])] == NodesFrom(d, 0, parts)[..k + 1]
  {
    NodesIndex(d, 0, parts, k);
  }

  lemma {:induction false} NodesIndex(d: Doc, at: nat, parts: seq<Doc>, k: nat)
    requires at <= k < |parts| && forall i :: 0 <= i < |parts| ==> parts[i] < d
    ensures NodesFrom(d, at, parts)[k - at] == NodeOf(parts[k])
    decreases k - at
  {
    if at < k { NodesIndex(d, at + 1, parts, k); }
  }

  /** The value of entry k, with the lines below it and those after. */
  lemma ValueParsed(d: Doc, k: nat, indent: nat, after: seq<Line>)
    requires Shaped(d) && GoodBlock(d) && k < |d.keys| && Outside(after, indent + 1)
    ensures MapValue(if GoodInline(d.values[k]) then " " + InlineText(d.values[k]) else "", Lines(Below(d, k, indent)) + after, indent)
         == Ok(Parsed(NodeOf(d.values[k]), after))
    decreases d, 0, 0
  {
    var value := d.values[k];
    assert GoodValue(d, k);
    if GoodInline(value) {
      InlineRead(value);
      assert [] + after == after;
    } else {
      BlockParsed(value, indent + 2, after);
    }
  }

  /** A printed block, and whatever follows it less indented. */
  lemma BlockParsed(d: Doc, indent: nat, rest: seq<Line>)
    requires GoodBlock(d) && Outside(rest, indent)
    ensures var lines := Lines(Print(d, indent)) + rest;
            lines != [] && lines[0].indent == indent && ParseBlock(lines, indent) == Ok(Parsed(NodeOf(d), rest))
    decreases d, 1, 0
  {
    if d.Fields? {
      FieldLinesIs(d, 0, indent);
      SplitsKeyText(d, 0);
      FieldsParsed(d, 0, indent, rest);
    } else {
      RowLinesIs(d, 0, indent);
      RowsParsed(d, 0, indent, rest);
    }
  }

  lemma SplitsKeyText(d: Doc, k: nat)
    requires Shaped(d) && k < |d.keys|
    ensures !IsItem(KeyText(d, k)) && KeyText(d, k) != "" && KeyText(d, k)[0] != ' '
    ensures SplitKey(KeyText(d, k)) ==
            Some(KeyValue(d.keys[k], if GoodInline(d.values[k]) then " " + InlineText(d.values[k]) else ""))
  {
    var rest := if GoodInline(d.values[k]) then " " + InlineText(d.values[k]) else "";
    assert GoodEntry(d, k);
    SplitsKey(d.keys[k], rest);
    assert KeyText(d, k)[0] == d.keys[k][0];
  }

  /** The entries of a map from number k on, the earlier ones read. */
  lemma {:induction false} FieldsParsed(d: Doc, k: nat, indent: nat, rest: seq<Line>)
    requires Shaped(d) && GoodBlock(d) && k <= |d.keys| && Outside(rest, indent)
    ensures ParseMap(FieldLines(d, k, indent) + rest, indent, d.keys[..k], NodesFrom(d, 0, d.values)[..k])
         == Ok(Parsed(NodeOf(d), rest))
    decreases d, 0, |d.keys| - k + 1
  {
    if k == |d.keys| {
      FieldsEnd(d, indent, rest);
    } else {
      var after := FieldLines(d, k + 1, indent) + rest;
      AfterField(d, k + 1, indent, rest);
      ValueParsed(d, k, indent, after);
      FieldStep(d, k, indent, rest, after);
      FieldsParsed(d, k + 1, indent, rest);
    }
  }

  lemma FieldsEnd(d: Doc, indent: nat, rest: seq<Line>)
    requires Shaped(d) && GoodBlock(d) && Outside(rest, indent)
    ensures ParseMap(FieldLines(d, |d.keys|, indent) + rest, indent, d.keys[..|d.keys|], NodesFrom(d, 0, d.values)[..|d.keys|])
         == Ok(Parsed(NodeOf(d), rest))
  {
    var n := |d.keys|;
    assert [] + rest == rest;
    assert d.keys[..n] == d.keys && NodesFrom(d, 0, d.values)[..n] == NodesFrom(d, 0, d.values);
  }

  /** One step of the map parser over printed lines. */
  lemma FieldStep(d: Doc, k: nat, indent: nat, rest: seq<Line>, after: seq<Line>)
    requires Shaped(d) && GoodBlock(d) && k < |d.keys| && after == FieldLines(d, k + 1, indent) + rest
    requires MapValue(if GoodInline(d.values[k]) then " " + InlineText(d.values[k]) else "", Lines(Below(d, k, indent)) + after, indent)
          == Ok(Parsed(NodeOf(d.values[k]), after))
    ensures ParseMap(FieldLines(d, k, indent) + rest, indent, d.keys[..k], NodesFrom(d, 0, d.values)[..k])
         == ParseMap(after, indent, d.keys[..k + 1], NodesFrom(d, 0, d.values)[..k + 1])
  {
    var below := Lines(Below(d, k, indent));
    FieldLinesIs(d, k, indent);
    RestAfterRow([Line(indent, KeyText(d, k))], below, FieldLines(d, k + 1, indent), rest);
    FieldParsed(d, k, indent, below + after, after);
    NodesSlice(d, k, d.values);
    KeysSlice(d.keys, k);
  }

  lemma KeysSlice(keys: seq<string>, k: nat)
    requires k < |keys|
    ensures keys[..k] + [keys[k]] == keys[..k + 1]
  {
  }

  lemma AfterField(d: Doc, k: nat, indent: nat, rest: seq<Line>)
    requires Shaped(d) && GoodBlock(d) && k <= |d.keys| && Outside(rest, indent)
    ensures Outside(FieldLines(d, k, indent) + rest, indent + 1)
  {
    if k < |d.keys| { FieldLinesIs(d, k, indent); }
  }

  /** One step of the map parser. */
  lemma FieldParsed(d: Doc, k: nat, indent: nat, below: seq<Line>, after: seq<Line>)
    requires Shaped(d) && k < |d.keys|
    requires MapValue(if GoodInline(d.values[k]) then " " + InlineText(d.values[k]) else "", below, indent)
          == Ok(Parsed(NodeOf(d.values[k]), after))
    ensures ParseMap([Line(indent, KeyText(d, k))] + below, indent, d.keys[..k], NodesFrom(d, 0, d.values)[..k])
         == ParseMap(after, indent, d.keys[..k] + [d.keys[k]], NodesFrom(d, 0, d.values)[..k] + [NodeOf(d.values[k])])
  {
    SplitsKeyText(d, k);
    var lines := [Line(indent, KeyText(d, k))] + below;
    assert lines[1..] == below;
    forall i | 0 <= i < k ensures d.keys[..k][i] != d.keys[k] { assert Differ(d.keys, i, k); }
  }

  /** The items of a list from number k on, the earlier ones read. */
  lemma {:induction false} RowsParsed(d: Doc, k: nat, indent: nat, rest: seq<Line>)
    requires d.Rows? && GoodBlock(d) && k <= |d.rows| && Outside(rest, indent)
    ensures ParseSeq(Lines(PrintRows(d, k, indent)) + rest, indent, NodesFrom(d, 0, d.rows)[..k]) == Ok(Parsed(NodeOf(d), rest))
    decreases d, 0, |d.rows| - k
  {
    if k == |d.rows| {
      RowsEnd(d, indent, rest);
    } else {
      var after := Lines(PrintRows(d, k + 1, indent)) + rest;
      RowStep(d, k, indent, rest, after);
      RowsParsed(d, k + 1, indent, rest);
    }
  }

  lemma RowsEnd(d: Doc, indent: nat, rest: seq<Line>)
    requires d.Rows? && GoodBlock(d) && Outside(rest, indent)
    ensures var n := |d.rows|;
            ParseSeq(Lines(PrintRows(d, n, indent)) + rest, indent, NodesFrom(d, 0, d.rows)[..n]) == Ok(Parsed(NodeOf(d), rest))
  {
    assert [] + rest == rest;
    assert NodesFrom(d, 0, d.rows)[..|d.rows|] == NodesFrom(d, 0, d.rows);
  }

  /** One step of the list parser. */
  lemma RowStep(d: Doc, k: nat, indent: nat, rest: seq<Line>, after: seq<Line>)
    requires d.Rows? && GoodBlock(d) && k < |d.rows| && after == Lines(PrintRows(d, k + 1, indent)) + rest
    requires Outside(rest, indent)
    ensures ParseSeq(Lines(PrintRows(d, k, indent)) + rest, indent, NodesFrom(d, 0, d.rows)[..k])
         == ParseSeq(after, indent, NodesFrom(d, 0, d.rows)[..k + 1])
    decreases d, 0, 0
  {
    var row := d.rows[k];
    assert GoodRow(d, k);
    AfterRow(d, k + 1, indent, rest);
    FieldsParsed(row, 0, indent + 2, after);
    NothingRead(row);
    var own := FieldLines(row, 0, indent + 2);
    RowLinesIs(d, k, indent);
    RestAfterRow([Line(indent, "- " + own[0].text)], own[1..], Lines(PrintRows(d, k + 1, indent)), rest);
    SplitsKeyText(row, 0);
    RowParsed(own, indent, after, NodeOf(row));
    NodesSlice(d, k, d.rows);
  }

  lemma RestAfterRow<T>(a: seq<T>, b: seq<T>, c: seq<T>, rest: seq<T>)
    ensures a + (b + c) + rest == a + (b + (c + rest))
  {
  }

  lemma NothingRead(d: Doc)
    requires Shaped(d)
    ensures d.keys[..0] == [] && NodesFrom(d, 0, d.values)[..0] == []
  {
  }

  lemma AfterRow(d: Doc, k: nat, indent: nat, rest: seq<Line>)
    requires d.Rows? && GoodBlock(d) && k <= |d.rows| && Outside(rest, indent)
    ensures Outside(Lines(PrintRows(d, k, indent)) + rest, indent + 2)
  {
    if k < |d.rows| { RowLinesIs(d, k, indent); }
  }

  /** One item: its first line, without the dash, begins a map. */
  lemma RowParsed(own: seq<Line>, indent: nat, after: seq<Line>, node: Node)
    requires own != [] && own[0].indent == indent + 2 && own[0].text != "" && own[0].text[0] != ' '
    requires !IsItem(own[0].text) && SplitKey(own[0].text).Some?
    requires ParseMap(own + after, indent + 2, [], []) == Ok(Parsed(node, after))
    ensures var lines := [Line(indent, "- " + own[0].text)] + (own[1..] + after);
            IsItem(lines[0].text) && ParseItem(lines, indent) == Ok(Parsed(node, after))
  {
    var lines := [Line(indent, "- " + own[0].text)] + (own[1..] + after);
    DashText(own[0].text);
    Undashed(own, Line(indent + 2, own[0].text), lines, after);
  }

  lemma DashText(text: string)
    requires text != "" && text[0] != ' '
    ensures IsItem("- " + text) && ItemSkip("- " + text) == 2 && ("- " + text)[2..] == text
  {
    assert ("- " + text)[2] == text[0];
    assert SkipSpaces("- " + text, 2) == 2;
  }

  lemma Undashed(own: seq<Line>, first: Line, lines: seq<Line>, after: seq<Line>)
    requires own != [] && lines != [] && first == own[0] && lines[1..] == own[1..] + after
    ensures [first] + lines[1..] == own + after
  {
  }

  // ---------------------------------------------------------------- everything printed is printable

  lemma ScalarPlaced(d: Doc)
    requires GoodScalar(d)
    ensures d.Word? ==> PlainText(d.word)
  {
  }

  lemma {:induction false} FlowPlaced(parts: seq<Doc>)
    requires GoodParts(parts)
    ensures WellPlaced(FlowToks(parts) + [Plain("]")], true)
    decreases |parts|
  {
    var end := [Plain("]")];
    assert end[1..] == [];
    if parts == [] {
      assert FlowToks(parts) + end == end;
    } else {
      ScalarPlaced(parts[0]);
      var toks := FlowToks(parts) + end;
      if |parts| == 1 {
        assert toks[1..] == end;
      } else {
        FlowPlaced(parts[1..]);
        assert toks[1..] == [Plain(", ")] + (FlowToks(parts[1..]) + end);
        assert toks[1..][1..] == FlowToks(parts[1..]) + end;
      }
    }
  }

  lemma InlinePlaced(d: Doc)
    requires GoodInline(d)
    ensures WellPlaced(InlineToks(d), true)
  {
    if d.Flow? {
      FlowPlaced(d.parts);
      var rest := FlowToks(d.parts) + [Plain("]")];
      assert InlineToks(d) == [Plain("[")] + rest;
      assert InlineToks(d)[1..] == rest;
    } else {
      ScalarPlaced(d);
      assert InlineToks(d)[1..] == [];
    }
  }

  lemma KeyPlain(key: string, mark: string)
    requires GoodKey(key) && (mark == ":" || mark == ": ")
    ensures PlainText(key + mark)
  {
  }

  lemma KeyLinePrintable(d: Doc, k: nat, indent: nat)
    requires Shaped(d) && k < |d.keys|
    ensures Printable(KeyLine(d, k, indent))
  {
    var line := KeyLine(d, k, indent);
    assert GoodEntry(d, k);
    KeyLineText(d, k, indent);
    KeyTextIsLine(d, k);
    if GoodInline(d.values[k]) {
      KeyPlain(d.keys[k], ": ");
      InlinePlaced(d.values[k]);
      assert line.toks[1..] == InlineToks(d.values[k]);
    } else {
      KeyPlain(d.keys[k], ":");
      assert line.toks[1..] == [];
    }
  }

  lemma KeyTextIsLine(d: Doc, k: nat)
    requires Shaped(d) && k < |d.keys|
    ensures LineText(KeyText(d, k)) && IsLetter(KeyText(d, k)[0])
  {
    var text := KeyText(d, k);
    assert GoodEntry(d, k);
    assert text[0] == d.keys[k][0];
    if GoodInline(d.values[k]) {
      InlineTextIs(d.values[k]);
      var v := InlineText(d.values[k]);
      assert text[|text| - 1] == v[|v| - 1];
    }
  }

  lemma {:induction false} CommentsPrintable(lines: seq<string>)
    requires forall k :: 0 <= k < |lines| ==> CommentText(lines[k])
    ensures AllPrintable(Comments(lines))
    decreases |lines|
  {
    if lines != [] { CommentsPrintable(lines[1..]); }
  }

  lemma BothPrintable(a: seq<Printed>, b: seq<Printed>)
    requires AllPrintable(a) && AllPrintable(b)
    ensures AllPrintable(a + b)
  {
  }

  lemma BlockPrintable(d: Doc, indent: nat)
    requires GoodBlock(d)
    ensures AllPrintable(Print(d, indent))
    decreases d, 1, 0
  {
    if d.Fields? { FieldsPrintable(d, 0, indent); } else { RowsPrintable(d, 0, indent); }
  }

  lemma {:induction false} FieldsPrintable(d: Doc, k: nat, indent: nat)
    requires Shaped(d) && GoodBlock(d) && k <= |d.keys|
    ensures AllPrintable(PrintFields(d, k, indent))
    decreases d, 0, |d.keys| - k + 1
  {
    if k < |d.keys| {
      BelowPrintable(d, k, indent);
      FieldsPrintable(d, k + 1, indent);
      FieldPrintable(d, k, indent);
    }
  }

  lemma BelowPrintable(d: Doc, k: nat, indent: nat)
    requires Shaped(d) && GoodBlock(d) && k < |d.keys|
    ensures AllPrintable(Below(d, k, indent))
    decreases d, 0, 0
  {
    assert GoodValue(d, k);
    if !GoodInline(d.values[k]) { BlockPrintable(d.values[k], indent + 2); }
  }

  /** One entry, in front of the later ones. */
  lemma FieldPrintable(d: Doc, k: nat, indent: nat)
    requires Shaped(d) && GoodBlock(d) && k < |d.keys|
    requires AllPrintable(Below(d, k, indent)) && AllPrintable(PrintFields(d, k + 1, indent))
    ensures AllPrintable(PrintFields(d, k, indent))
  {
    assert GoodEntry(d, k);
    CommentsPrintable(d.notes[k].before);
    KeyLinePrintable(d, k, indent);
    PartsPrintable(Comments(d.notes[k].before), KeyLine(d, k, indent), Below(d, k, indent), PrintFields(d, k + 1, indent));
    FieldsPrinted(d, k, indent);
  }

  lemma PartsPrintable(before: seq<Printed>, line: Printed, below: seq<Printed>, rest: seq<Printed>)
    requires AllPrintable(before) && Printable(line) && AllPrintable(below) && AllPrintable(rest)
    ensures AllPrintable(before + ([line] + (below + rest)))
  {
    BothPrintable(below, rest);
    BothPrintable([line], below + rest);
    BothPrintable(before, [line] + (below + rest));
  }

  lemma {:induction false} RowsPrintable(d: Doc, k: nat, indent: nat)
    requires d.Rows? && GoodBlock(d) && k <= |d.rows|
    ensures AllPrintable(PrintRows(d, k, indent))
    decreases d, 0, |d.rows| - k
  {
    if k < |d.rows| {
      assert GoodRow(d, k);
      var row := d.rows[k];
      var ps := PrintFields(row, 0, indent + 2);
      FieldsPrintable(row, 0, indent + 2);
      FirstPrinted(row, indent + 2);
      DashedPrintable(ps, indent);
      RowsPrintable(d, k + 1, indent);
      BothPrintable(Dashed(ps, indent), PrintRows(d, k + 1, indent));
    }
  }

  lemma DashedPrintable(ps: seq<Printed>, indent: nat)
    requires AllPrintable(ps) && ps != [] && ps[0].Entry?
    ensures AllPrintable(Dashed(ps, indent))
  {
    DashPrintable(ps[0], indent);
    BothPrintable([Entry(indent, [Plain("- ")] + ps[0].toks, ps[0].note)], ps[1..]);
  }

  lemma DashPrintable(p: Printed, indent: nat)
    requires p.Entry? && Printable(p)
    ensures Printable(Entry(indent, [Plain("- ")] + p.toks, p.note))
  {
    FirstTok(Plain("- "), p.toks);
    DashLineText(Text(p.toks));
    DashPlaced(p.toks);
  }

  lemma DashPlaced(toks: seq<Tok>)
    requires WellPlaced(toks, true)
    ensures WellPlaced([Plain("- ")] + toks, true)
  {
    assert ([Plain("- ")] + toks)[1..] == toks;
  }

  lemma DashLineText(text: string)
    requires LineText(text)
    ensures LineText("- " + text)
  {
    assert ("- " + text)[|text| + 1] == text[|text| - 1];
  }

  // ---------------------------------------------------------------- the round trip

  lemma NoByteOrderMark(d: Doc)
    requires d.Fields? && GoodBlock(d)
    ensures WithoutBom(Render(Print(d, 0))) == Render(Print(d, 0))
  {
    var ps := PrintFields(d, 0, 0);
    FieldsPrintable(d, 0, 0);
    if d.notes[0].before == [] {
      FirstPrinted(d, 0);
      KeyLineText(d, 0, 0);
      KeyTextIsLine(d, 0);
      assert LineOf(ps[0])[0] == KeyText(d, 0)[0];
    } else {
      assert ps[0] == Comment(d.notes[0].before[0]);
    }
    assert Render(ps)[0] == if LineOf(ps[0]) == "" then '\n' else LineOf(ps[0])[0];
  }

  /** Parsing a printed document gives the document back, comments and quoted scalars of any content included. */
  lemma ParseOfPrint(d: Doc)
    requires d.Fields? && GoodBlock(d)
    ensures ParseYaml(Render(Print(d, 0))) == Ok(NodeOf(d))
  {
    FieldsPrintable(d, 0, 0);
    NoByteOrderMark(d);
    SplitOfRender(Print(d, 0));
    BlockParsed(d, 0, []);
    assert Lines(Print(d, 0)) + [] == Lines(Print(d, 0));
  }
}
