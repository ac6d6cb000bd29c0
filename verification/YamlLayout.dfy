/** The text of a document, line by line, and that it is the text of its printed lines. */
module YamlLayout {
  import opened Sequences
  import opened YamlText
  import opened YamlRender
  import opened YamlPrint
  import opened YamlRoundTrip

  /** Laid out below its key's line. */
  predicate IsBlock(d: Doc) {
    d.Fields? || d.Rows?
  }

  predicate HasEntry(d: Doc, k: nat) {
    d.Fields? && k < |d.keys| && k < |d.values| && k < |d.notes|
  }

  function CommentLines(lines: seq<string>): string {
    if lines == [] then "" else lines[0] + "\n" + CommentLines(lines[1..])
  }

  /** "key: value", its comment, and the line end. */
  function ValueLine(key: string, text: string, note: string): string {
    key + ": " + text + note + "\n"
  }

  /** "key:", its comment, and the line end. */
  function KeyOnly(key: string, note: string): string {
    key + ":" + note + "\n"
  }

  /** What stands before entry k: the indent, or the dash of the list item that the map is. */
  function Margin(k: nat, indent: nat, item: bool): string {
    if item && k == 0 && indent >= 2 then Glue(Spaces(indent - 2), "- ") else Spaces(indent)
  }

  function DocText(d: Doc, indent: nat): string
    decreases d, 2, 0
  {
    if d.Fields? then FieldsText(d, |d.keys|, indent, false) else if d.Rows? then RowsText(d, |d.rows|, indent) else ""
  }

  /** Entry k from its key on, with what is below it. */
  function EntryText(d: Doc, k: nat, indent: nat): string
    requires HasEntry(d, k)
    decreases d, 0, 0
  {
    if IsBlock(d.values[k]) then KeyOnly(d.keys[k], d.notes[k].after) + DocText(d.values[k], indent + 2)
    else ValueLine(d.keys[k], InlineText(d.values[k]), d.notes[k].after)
  }

  /** Entry k of a map, the comments before it included. */
  function FieldText(d: Doc, k: nat, indent: nat, item: bool): string
    requires HasEntry(d, k)
    decreases d, 0, 1
  {
    Glue(CommentLines(d.notes[k].before), Glue(Margin(k, indent, item), EntryText(d, k, indent)))
  }

  /** The first k entries of a map; as a list item, with a dash before the first. */
  function FieldsText(d: Doc, k: nat, indent: nat, item: bool): string
    decreases d, 1, k
  {
    if k == 0 || !HasEntry(d, k - 1) then "" else Glue(FieldsText(d, k - 1, indent, item), FieldText(d, k - 1, indent, item))
  }

  /** A map as an item of a list. */
  function ItemText(row: Doc, indent: nat): string
    decreases row, 3, 0
  {
    if row.Fields? then FieldsText(row, |row.keys|, indent + 2, true) else ""
  }

  /** The first k items of a list. */
  function RowsText(d: Doc, k: nat, indent: nat): string
    decreases d, 1, k
  {
    if d.Rows? && 0 < k <= |d.rows| then Glue(RowsText(d, k - 1, indent), ItemText(d.rows[k - 1], indent)) else ""
  }

  // ---------------------------------------------------------------- the text of printed lines

  lemma RenderOne(p: Printed)
    ensures Render([p]) == LineOf(p) + "\n"
  {
    assert [p][1..] == [];
    assert LineOf(p) + "\n" + "" == LineOf(p) + "\n";
  }

  lemma {:induction false} CommentsText(lines: seq<string>)
    ensures Render(Comments(lines)) == CommentLines(lines)
    decreases |lines|
  {
    if lines != [] {
      assert Comments(lines)[1..] == Comments(lines[1..]);
      CommentsText(lines[1..]);
    }
  }

  /** A good block is written as its printed lines. */
  lemma {:induction false} DocTextIs(d: Doc, indent: nat)
    requires GoodBlock(d)
    ensures DocText(d, indent) == Render(Print(d, indent))
    decreases d, 2, 0
  {
    if d.Fields? { MapTextIs(d, indent); } else { ListTextIs(d, indent); }
  }

  lemma GlueNothing(a: string)
    ensures Same(Glue(a, ""), a)
  {
    assert a + "" == a;
  }

  /** Gluing is associative. */
  lemma Reglue(a: string, b: string, c: string)
    ensures Same(Glue(Glue(a, b), c), Glue(a, Glue(b, c)))
  {
    GlueIs(a, b);
    GlueIs(b, c);
    GlueIs(Glue(a, b), c);
    GlueIs(a, Glue(b, c));
    Regroup(a, b, c);
  }

  /** Entry j of a map, then what follows it. */
  ghost predicate FieldThen(d: Doc, j: nat, indent: nat, item: bool, rests: seq<string>) {
    HasEntry(d, j) && j + 1 < |rests| && Same(rests[j], Glue(FieldText(d, j, indent, item), rests[j + 1]))
  }

  /** Entries that follow each other, glued together. */
  lemma {:induction false} GlueFields(d: Doc, k: nat, n: nat, indent: nat, item: bool, rests: seq<string>)
    requires k <= n < |rests| && forall j :: k <= j < n ==> FieldThen(d, j, indent, item, rests)
    ensures Same(Glue(FieldsText(d, k, indent, item), rests[k]), Glue(FieldsText(d, n, indent, item), rests[n]))
    decreases n - k
  {
    if k < n {
      assert FieldThen(d, k, indent, item, rests);
      Reglue(FieldsText(d, k, indent, item), FieldText(d, k, indent, item), rests[k + 1]);
      GlueFields(d, k + 1, n, indent, item, rests);
    }
  }

  ghost predicate RowThen(d: Doc, j: nat, indent: nat, rests: seq<string>) {
    d.Rows? && j < |d.rows| && j + 1 < |rests| && Same(rests[j], Glue(ItemText(d.rows[j], indent), rests[j + 1]))
  }

  lemma {:induction false} GlueRows(d: Doc, k: nat, n: nat, indent: nat, rests: seq<string>)
    requires k <= n < |rests| && forall j :: k <= j < n ==> RowThen(d, j, indent, rests)
    ensures Same(Glue(RowsText(d, k, indent), rests[k]), Glue(RowsText(d, n, indent), rests[n]))
    decreases n - k
  {
    if k < n {
      assert RowThen(d, k, indent, rests);
      Reglue(RowsText(d, k, indent), ItemText(d.rows[k], indent), rests[k + 1]);
      GlueRows(d, k + 1, n, indent, rests);
    }
  }

  /** What is left of a map's printed lines, entry by entry. */
  ghost predicate Chain(d: Doc, indent: nat, item: bool, rests: seq<string>) {
    && d.Fields? && |rests| == |d.keys| + 1 && Same(rests[|d.keys|], "")
    && forall j :: 0 <= j < |d.keys| ==> FieldThen(d, j, indent, item, rests)
  }

  /** The entries of a map from number k on. */
  ghost function TailText(d: Doc, k: nat, indent: nat): string
    requires d.Fields? && GoodBlock(d) && k <= |d.keys|
    decreases |d.keys| - k
  {
    if k == |d.keys| then "" else Glue(FieldText(d, k, indent, false), TailText(d, k + 1, indent))
  }

  lemma {:induction false} TailTextIs(d: Doc, k: nat, indent: nat)
    requires d.Fields? && GoodBlock(d) && k <= |d.keys|
    ensures Same(TailText(d, k, indent), Render(PrintFields(d, k, indent)))
    decreases d, 0, |d.keys| - k + 2
  {
    if k < |d.keys| {
      TailTextIs(d, k + 1, indent);
      FieldTextIs(d, k, indent);
    }
  }

  lemma {:induction false} MapChain(d: Doc, indent: nat) returns (rests: seq<string>)
    requires d.Fields? && GoodBlock(d)
    ensures Chain(d, indent, false, rests)
    ensures Same(rests[0], TailText(d, 0, indent)) && Same(rests[1], TailText(d, 1, indent))
  {
    var n := |d.keys|;
    rests := seq(n + 1, k requires 0 <= k <= n => TailText(d, k, indent));
    forall j | 0 <= j < n ensures FieldThen(d, j, indent, false, rests) {
    }
  }

  lemma {:induction false} ItemChain(d: Doc, r: nat, indent: nat) returns (rests: seq<string>)
    requires GoodRow(d, r)
    ensures Chain(d.rows[r], indent + 2, true, rests)
    ensures Same(rests[0], Render(Dashed(Print(d.rows[r], indent + 2), indent)))
    decreases d, 0, 1
  {
    var inner, row := indent + 2, d.rows[r];
    var plain := MapChain(row, inner);
    TailTextIs(row, 1, inner);
    FirstTextIs(d, r, indent);
    rests := [Render(Dashed(Print(row, inner), indent))] + plain[1..];
    forall j | 0 <= j < |row.keys| ensures FieldThen(row, j, inner, true, rests) {
      assert FieldThen(row, j, inner, false, plain);
    }
  }

  /** The entries of a chain make its whole text. */
  lemma ChainText(d: Doc, indent: nat, item: bool, rests: seq<string>)
    requires Chain(d, indent, item, rests)
    ensures Same(FieldsText(d, |d.keys|, indent, item), rests[0])
  {
    GlueFields(d, 0, |d.keys|, indent, item, rests);
    GlueNothing(FieldsText(d, |d.keys|, indent, item));
  }

  lemma {:induction false} MapTextIs(d: Doc, indent: nat)
    requires d.Fields? && GoodBlock(d)
    ensures Same(FieldsText(d, |d.keys|, indent, false), Render(PrintFields(d, 0, indent)))
    decreases d, 1
  {
    var rests := MapChain(d, indent);
    ChainText(d, indent, false, rests);
    TailTextIs(d, 0, indent);
  }

  lemma {:induction false} ListTextIs(d: Doc, indent: nat)
    requires d.Rows? && GoodBlock(d)
    ensures Same(RowsText(d, |d.rows|, indent), Render(PrintRows(d, 0, indent)))
    decreases d, 1
  {
    var n := |d.rows|;
    var rests := seq(n + 1, k requires 0 <= k <= n => Render(PrintRows(d, k, indent)));
    forall j | 0 <= j < n ensures RowThen(d, j, indent, rests) {
      ItemTextIs(d, j, indent);
      RowRendered(d, j, indent);
    }
    GlueRows(d, 0, n, indent, rests);
    GlueNothing(RowsText(d, n, indent));
  }

  lemma {:induction false} ItemTextIs(d: Doc, r: nat, indent: nat)
    requires d.Rows? && GoodBlock(d) && r < |d.rows|
    ensures GoodRow(d, r)
    ensures Same(ItemText(d.rows[r], indent), Render(Dashed(Print(d.rows[r], indent + 2), indent)))
    decreases d, 0
  {
    assert GoodRow(d, r);
    var rests := ItemChain(d, r, indent);
    ChainText(d.rows[r], indent + 2, true, rests);
  }

  /** Entry k and the rest. */
  lemma {:induction false} FieldTextIs(d: Doc, k: nat, indent: nat)
    requires d.Fields? && GoodBlock(d) && k < |d.keys|
    ensures HasEntry(d, k)
    ensures Same(Render(PrintFields(d, k, indent)), Glue(FieldText(d, k, indent, false), Render(PrintFields(d, k + 1, indent))))
    decreases d, 0, 1
  {
    EntryTextIs(d, k, indent);
    FieldGlued(d, k, indent);
  }

  lemma FieldGlued(d: Doc, k: nat, indent: nat)
    requires d.Fields? && GoodBlock(d) && k < |d.keys|
    requires Same(Glue(Spaces(indent), EntryText(d, k, indent)),
                  LineOf(KeyLine(d, k, indent)) + "\n" + Render(Below(d, k, indent)))
    ensures Same(Render(PrintFields(d, k, indent)), Glue(FieldText(d, k, indent, false), Render(PrintFields(d, k + 1, indent))))
  {
    FieldRendered(d, k, indent);
    var comments, own, rest := CommentLines(d.notes[k].before), Glue(Spaces(indent), EntryText(d, k, indent)),
                               Render(PrintFields(d, k + 1, indent));
    GlueIs(own, rest);
    GlueIs(comments, Glue(own, rest));
    Reglue(comments, own, rest);
  }

  /** The lines of entry k, then those of the rest. */
  lemma FieldRendered(d: Doc, k: nat, indent: nat)
    requires d.Fields? && GoodBlock(d) && k < |d.keys|
    ensures Same(Render(PrintFields(d, k, indent)),
                 CommentLines(d.notes[k].before)
                 + ((LineOf(KeyLine(d, k, indent)) + "\n" + Render(Below(d, k, indent))) + Render(PrintFields(d, k + 1, indent))))
  {
    var line, below, rest := KeyLine(d, k, indent), Below(d, k, indent), PrintFields(d, k + 1, indent);
    FieldsPrinted(d, k, indent);
    CommentsText(d.notes[k].before);
    RenderJoin(Comments(d.notes[k].before), [line] + (below + rest));
    RenderJoin([line], below + rest);
    RenderJoin(below, rest);
    RenderOne(line);
    Regroup(LineOf(line) + "\n", Render(below), Render(rest));
  }

  lemma {:induction false} EntryTextIs(d: Doc, k: nat, indent: nat)
    requires d.Fields? && GoodBlock(d) && k < |d.keys|
    ensures HasEntry(d, k)
    ensures Same(Glue(Spaces(indent), EntryText(d, k, indent)),
                 LineOf(KeyLine(d, k, indent)) + "\n" + Render(Below(d, k, indent)))
    decreases d, 0, 0
  {
    KeyLineText(d, k, indent);
    GlueIs(Spaces(indent), EntryText(d, k, indent));
    assert GoodValue(d, k);
    var value, note := d.values[k], d.notes[k].after;
    if GoodInline(value) {
      InlineEntry(d, k, indent);
      AfterIndent(indent, KeyText(d, k), note, Render(Below(d, k, indent)));
    } else {
      DocTextIs(value, indent + 2);
      BlockEntry(d, k, indent);
      AfterIndent(indent, KeyText(d, k), note, Render(Below(d, k, indent)));
    }
  }

  lemma AfterIndent(indent: nat, text: string, note: string, below: string)
    ensures Same(Spaces(indent) + (text + note + "\n" + below), Spaces(indent) + text + note + "\n" + below)
  {
    assert Spaces(indent) + (text + note + "\n" + below) == Spaces(indent) + text + note + "\n" + below;
  }

  lemma InlineEntry(d: Doc, k: nat, indent: nat)
    requires d.Fields? && GoodBlock(d) && k < |d.keys| && GoodInline(d.values[k])
    ensures Same(EntryText(d, k, indent), KeyText(d, k) + d.notes[k].after + "\n" + Render(Below(d, k, indent)))
  {
    var key, note, text := d.keys[k], d.notes[k].after, InlineText(d.values[k]);
    assert key + ":" + (" " + text) + note + "\n" + "" == ValueLine(key, text, note);
  }

  lemma BlockEntry(d: Doc, k: nat, indent: nat)
    requires d.Fields? && GoodBlock(d) && k < |d.keys| && !GoodInline(d.values[k]) && GoodBlock(d.values[k])
    requires DocText(d.values[k], indent + 2) == Render(Print(d.values[k], indent + 2))
    ensures Same(EntryText(d, k, indent), KeyText(d, k) + d.notes[k].after + "\n" + Render(Below(d, k, indent)))
  {
    assert KeyText(d, k) == d.keys[k] + ":";
    assert Below(d, k, indent) == Print(d.values[k], indent + 2);
    BlockEntryText(d, k, indent);
  }

  lemma BlockEntryText(d: Doc, k: nat, indent: nat)
    requires HasEntry(d, k) && IsBlock(d.values[k])
    ensures EntryText(d, k, indent) == KeyOnly(d.keys[k], d.notes[k].after) + DocText(d.values[k], indent + 2)
  {
  }

  /** The lines of item k, then those of the rest. */
  lemma RowRendered(d: Doc, k: nat, indent: nat)
    requires d.Rows? && GoodBlock(d) && k < |d.rows| && GoodRow(d, k)
    requires Same(ItemText(d.rows[k], indent), Render(Dashed(Print(d.rows[k], indent + 2), indent)))
    ensures Same(Render(PrintRows(d, k, indent)), Glue(ItemText(d.rows[k], indent), Render(PrintRows(d, k + 1, indent))))
  {
    RenderJoin(Dashed(Print(d.rows[k], indent + 2), indent), PrintRows(d, k + 1, indent));
    GlueIs(ItemText(d.rows[k], indent), Render(PrintRows(d, k + 1, indent)));
  }

  /** The first entry of an item, and the rest. */
  lemma {:induction false} FirstTextIs(d: Doc, r: nat, indent: nat)
    requires GoodRow(d, r)
    ensures HasEntry(d.rows[r], 0)
    ensures Same(Render(Dashed(Print(d.rows[r], indent + 2), indent)),
                 Glue(FieldText(d.rows[r], 0, indent + 2, true), Render(PrintFields(d.rows[r], 1, indent + 2))))
    decreases d, 0, 0
  {
    EntryTextIs(d.rows[r], 0, indent + 2);
    ItemBegins(d, r, indent);
  }

  lemma ItemBegins(d: Doc, r: nat, indent: nat)
    requires GoodRow(d, r)
    requires Same(Glue(Spaces(indent + 2), EntryText(d.rows[r], 0, indent + 2)),
                  LineOf(KeyLine(d.rows[r], 0, indent + 2)) + "\n" + Render(Below(d.rows[r], 0, indent + 2)))
    ensures Same(Render(Dashed(Print(d.rows[r], indent + 2), indent)),
                 Glue(FieldText(d.rows[r], 0, indent + 2, true), Render(PrintFields(d.rows[r], 1, indent + 2))))
  {
    var row := d.rows[r];
    GlueIs(Spaces(indent + 2), EntryText(row, 0, indent + 2));
    var line, below, rest := KeyLine(row, 0, indent + 2), Below(row, 0, indent + 2), PrintFields(row, 1, indent + 2);
    GlueIs(below, rest);
    DashedLine(line, indent, below + rest);
    RenderJoin(below, rest);
    Regroup(Spaces(indent) + ("- " + Text(line.toks)) + line.note + "\n", Render(below), Render(rest));
    DashMoves(indent, Text(line.toks), line.note, EntryText(row, 0, indent + 2), Render(below));
    ItemStarts(row, indent);
    GlueIs(Spaces(indent) + ("- " + EntryText(row, 0, indent + 2)), Render(rest));
  }

  /** An item's first entry: the dash and the entry. */
  lemma ItemStarts(row: Doc, indent: nat)
    requires HasEntry(row, 0) && row.notes[0].before == []
    ensures Same(FieldText(row, 0, indent + 2, true), Spaces(indent) + ("- " + EntryText(row, 0, indent + 2)))
  {
    var entry := EntryText(row, 0, indent + 2);
    GlueIs(Spaces(indent), "- ");
    GlueIs(Glue(Spaces(indent), "- "), entry);
    Regroup(Spaces(indent), "- ", entry);
  }

  /** Taking the indent away from a line, and putting a dash in its place. */
  lemma DashMoves(indent: nat, text: string, note: string, entry: string, below: string)
    requires Spaces(indent + 2) + entry == Spaces(indent + 2) + text + note + "\n" + below
    ensures Spaces(indent) + ("- " + entry) == Spaces(indent) + ("- " + text) + note + "\n" + below
  {
    SameRest(Spaces(indent + 2), entry, text + note + "\n" + below);
  }

  lemma SameRest(start: string, a: string, b: string)
    requires start + a == start + b
    ensures a == b
  {
    assert (start + a)[|start|..] == a && (start + b)[|start|..] == b;
  }

  lemma DashedLine(line: Printed, indent: nat, rest: seq<Printed>)
    requires line.Entry?
    ensures Render(Dashed([line] + rest, indent)) == Spaces(indent) + ("- " + Text(line.toks)) + line.note + "\n" + Render(rest)
  {
    var toks := [Plain("- ")] + line.toks;
    assert toks[1..] == line.toks;
    var first := Entry(indent, toks, line.note);
    assert Dashed([line] + rest, indent) == [first] + rest;
    RenderJoin([first], rest);
    RenderOne(first);
  }
}
