/** Values on one line: scalars and flow lists, and the split of "key: rest". */
module YamlInline {
  import opened Sequences
  import opened YamlText

  /** A node without its line number. */
  datatype Node = Scalar(text: string, quoted: bool) | Map(keys: seq<string>, items: seq<Node>) | Seq(items: seq<Node>)

  datatype Option<T> = None | Some(value: T)

  /** ReadScalar(). */
  function ReadScalar(line: string): Result<Node> {
    var text := Trim(line);
    if text == "" then Ok(Scalar("", false))
    else if text[0] == '\"' || text[0] == '\'' then ReadQuotedScalar(text)
    else if text[0] == '{' then Err(FlowMap)
    else if text[0] == '&' || text[0] == '*' || text[0] == '!' then Err(Anchor)
    else if text[0] == '|' || text[0] == '>' then Err(BlockScalar)
    else Ok(Scalar(text, false))
  }

  function ReadQuotedScalar(text: string): Result<Node>
    requires text != ""
  {
    match Unquoted(text, 1, text[0])
    case Err(fault) => Err(fault)
    case Ok(read) => if Trim(text[read.next..]) != "" then Err(TextAfterQuote) else Ok(Scalar(read.text, true))
  }

  // ---------------------------------------------------------------- flow lists

  function SkipSpaces(s: string, p: nat): (q: nat)
    requires p <= |s|
    ensures p <= q <= |s|
    decreases |s| - p
  {
    if p < |s| && s[p] == ' ' then SkipSpaces(s, p + 1) else p
  }

  /** The end of a plain list item. */
  function PlainEnd(s: string, p: nat): (q: nat)
    requires p <= |s|
    ensures p <= q <= |s|
    decreases |s| - p
  {
    if p < |s| && s[p] != ',' && s[p] != ']' then PlainEnd(s, p + 1) else p
  }

  /** A list item, and the position after it. */
  datatype Item = Item(node: Node, next: nat)

  function ItemAt(s: string, p: nat): (r: Result<Item>)
    requires p < |s|
    ensures r.Ok? ==> p < r.value.next <= |s|
  {
    if s[p] == '\"' || s[p] == '\'' then
      match Unquoted(s, p + 1, s[p])
      case Err(fault) => Err(fault)
      case Ok(read) => Ok(Item(Scalar(read.text, true), read.next))
    else if s[p] == '[' || s[p] == '{' then Err(NestedFlow)
    else
      var end := PlainEnd(s, p);
      var text := Trim(s[p..end]);
      if text == "" then Err(EmptyItem)
      else
        Ok(Item(Scalar(text, false), end))
  }

  /** Items, and the position after the closing bracket. */
  datatype Items = Items(nodes: seq<Node>, next: nat)

  function Before(nodes: seq<Node>, rest: Result<Items>): Result<Items> {
    if rest.Ok? then Ok(Items(nodes + rest.value.nodes, rest.value.next)) else rest
  }

  /** The rest of a flow list from s[p] on: is an item expected, and is it the first? */
  function FlowFrom(s: string, p: nat, expectItem: bool, first: bool): (r: Result<Items>)
    requires p <= |s|
    ensures r.Ok? ==> r.value.next <= |s|
    decreases |s| - p
  {
    var at := SkipSpaces(s, p);
    if at == |s| then Err(MissingBracket)
    else if s[at] == ']' then
      if expectItem && !first then Err(EmptyItem) else Ok(Items([], at + 1))
    else if !expectItem then Err(ExpectedComma)
    else
      match ItemAt(s, at)
      case Err(fault) => Err(fault)
      case Ok(item) =>
        var next := SkipSpaces(s, item.next);
        var comma := next < |s| && s[next] == ',';
        Before([item.node], FlowFrom(s, if comma then next + 1 else next, comma, false))
  }

  /** ReadInline(): a flow list or a scalar. */
  function ReadInline(line: string): Result<Node> {
    var text := Trim(line);
    if text == "" || text[0] != '[' then ReadScalar(text)
    else
      match FlowFrom(text, 1, true, true)
      case Err(fault) => Err(fault)
      case Ok(items) => if Trim(text[items.next..]) != "" then Err(TextAfterBracket) else Ok(Seq(items.nodes))
  }

  /** `items`, then what `rest` reads. */
  ghost predicate Continues(whole: Result<Items>, items: seq<Node>, rest: Result<Items>) {
    Same(whole, Before(items, rest))
  }

  lemma NothingYet(rest: Result<Items>)
    ensures Continues(rest, [], rest)
  {
    if rest.Ok? { assert [] + rest.value.nodes == rest.value.nodes; }
  }

  lemma OneMoreItem(whole: Result<Items>, items: seq<Node>, node: Node, rest: Result<Items>)
    requires Continues(whole, items, Before([node], rest))
    ensures Continues(whole, items + [node], rest)
  {
    if rest.Ok? { assert items + ([node] + rest.value.nodes) == items + [node] + rest.value.nodes; }
  }

  lemma NoMoreItems(whole: Result<Items>, items: seq<Node>, next: nat)
    requires Continues(whole, items, Ok(Items([], next)))
    ensures Same(whole, Ok(Items(items, next)))
  {
    assert items + [] == items;
  }

  /** One item of a flow list, and its comma if it has one. */
  lemma FlowStep(s: string, p: nat, first: bool, at: nat, item: Item, next: nat, comma: bool)
    requires p <= |s| && at == SkipSpaces(s, p) < |s| && s[at] != ']' && ItemAt(s, at) == Ok(item)
    requires next == SkipSpaces(s, item.next) && comma == (next < |s| && s[next] == ',')
    ensures Same(FlowFrom(s, p, true, first),
                 Before([item.node], FlowFrom(s, if comma then next + 1 else next, comma, false)))
  {
  }

  /** The loop of ReadInline(). */
  method ReadFlow(s: string) returns (r: Result<Items>)
    requires s != ""
    ensures r == FlowFrom(s, 1, true, true)
  {
    var items: seq<Node>, p, expectItem := [], 1, true;
    NothingYet(FlowFrom(s, 1, true, true));
    while true
      invariant p <= |s| && Continues(FlowFrom(s, 1, true, true), items, FlowFrom(s, p, expectItem, |items| == 0))
      decreases |s| - p
    {
      ghost var from := p;
      p := Skip(s, p);
      if p >= |s| { return Err(MissingBracket); }
      if s[p] == ']' {
        if expectItem && |items| > 0 { return Err(EmptyItem); }
        NoMoreItems(FlowFrom(s, 1, true, true), items, p + 1);
        return Ok(Items(items, p + 1));
      }
      if !expectItem { return Err(ExpectedComma); }
      ghost var at := p;
      var item := ItemAt(s, p);
      if item.Err? { return Err(item.fault); }
      p := Skip(s, item.value.next);
      expectItem := p < |s| && s[p] == ',';
      FlowStep(s, from, |items| == 0, at, item.value, p, expectItem);
      if expectItem { p := p + 1; }
      OneMoreItem(FlowFrom(s, 1, true, true), items, item.value.node, FlowFrom(s, p, expectItem, false));
      items := items + [item.value.node];
    }
  }

  method Skip(s: string, start: nat) returns (p: nat)
    requires start <= |s|
    ensures p == SkipSpaces(s, start)
  {
    p := start;
    while p < |s| && s[p] == ' '
      invariant start <= p <= |s| && SkipSpaces(s, start) == SkipSpaces(s, p)
    {
      p := p + 1;
    }
  }

  // ---------------------------------------------------------------- map entries and list items

  datatype KeyValue = KeyValue(key: string, rest: string)

  /** The first colon from i on that ends the text or has a blank after it; the end if there is none. */
  function KeyEnd(text: string, i: nat): (k: nat)
    requires i <= |text|
    ensures i <= k <= |text|
    decreases |text| - i
  {
    if i == |text| then i
    else if text[i] == ':' && (i + 1 == |text| || IsBlank(text[i + 1])) then i
    else KeyEnd(text, i + 1)
  }

  /** SplitKey(). */
  function SplitKey(text: string): Option<KeyValue> {
    if text == "" || text[0] == '\"' || text[0] == '\'' || text[0] == '[' then None
    else
      var k := KeyEnd(text, 0);
      if k == |text| || Trim(text[..k]) == "" then None else Some(KeyValue(Trim(text[..k]), text[k + 1..]))
  }

  predicate IsItem(text: string) {
    text != "" && text[0] == '-' && (|text| == 1 || text[1] == ' ')
  }
}
