/** The serializers, line by line: each builds exactly the text that ConfigRoundTrip reads back. */
module ConfigWriter {
  import opened Sequences
  import opened YamlText
  import opened YamlRender
  import opened YamlPrint
  import opened YamlRoundTrip
  import opened YamlLayout
  import opened ConfigTable
  import opened ConfigRead
  import opened ConfigText
  import opened ConfigRoundTrip

  // ---------------------------------------------------------------- lines

  /** `whole` is `out` and then `rest`. */
  ghost predicate Written(whole: string, out: string, rest: string) {
    Same(whole, out + rest)
  }

  lemma WriteNothing(whole: string)
    ensures Written(whole, "", whole)
  {
    assert "" + whole == whole;
  }

  lemma WriteMore(whole: string, out: string, part: string, rest: string)
    requires Written(whole, out, part + rest)
    ensures Written(whole, out + part, rest)
  {
    Regroup(out, part, rest);
  }

  lemma WroteAll(whole: string, out: string)
    requires Written(whole, out, "")
    ensures Same(out, whole)
  {
    assert out + "" == out;
  }

  /** Entry k of a map is that value on its key's line. */
  ghost predicate HasLine(d: Doc, k: nat, key: string, text: string, note: Note) {
    && HasEntry(d, k) && Same(d.keys[k], key) && Same(d.notes[k], note)
    && !IsBlock(d.values[k]) && Same(InlineText(d.values[k]), text)
  }

  /** Entry k of a map is that block. */
  ghost predicate HasBlock(d: Doc, k: nat, key: string, value: Doc, note: Note) {
    HasEntry(d, k) && Same(d.keys[k], key) && Same(d.notes[k], note) && Same(d.values[k], value) && IsBlock(value)
  }

  lemma ScalarText(d: Doc)
    requires d.Word? || d.Str?
    ensures Same(InlineText(d), if d.Str? then Quote(d.text) else d.word)
  {
    TextOfOne(ScalarTok(d));
  }

  lemma ListText(parts: seq<Doc>)
    ensures Same(InlineText(Flow(parts)), "[" + Text(FlowToks(parts)) + "]")
  {
    FlowText(parts);
  }

  /** One more entry of a map written. */
  lemma LineWritten(d: Doc, k: nat, indent: nat, item: bool, key: string, text: string, note: Note)
    requires HasLine(d, k, key, text, note)
    ensures Same(FieldsText(d, k + 1, indent, item),
                 FieldsText(d, k, indent, item)
                 + (CommentLines(note.before) + (Margin(k, indent, item) + ValueLine(key, text, note.after))))
  {
    assert Same(EntryText(d, k, indent), ValueLine(key, text, note.after));
    FieldWritten(d, k, indent, item);
  }

  lemma BlockWritten(d: Doc, k: nat, indent: nat, key: string, value: Doc, note: Note)
    requires HasBlock(d, k, key, value, note)
    ensures Same(FieldsText(d, k + 1, indent, false),
                 FieldsText(d, k, indent, false)
                 + (CommentLines(note.before)
                    + (Margin(k, indent, false) + (KeyOnly(key, note.after) + DocText(value, indent + 2)))))
  {
    assert Same(EntryText(d, k, indent), KeyOnly(key, note.after) + DocText(value, indent + 2));
    FieldWritten(d, k, indent, false);
  }

  lemma FieldWritten(d: Doc, k: nat, indent: nat, item: bool)
    requires HasEntry(d, k)
    ensures Same(FieldsText(d, k + 1, indent, item),
                 FieldsText(d, k, indent, item)
                 + (CommentLines(d.notes[k].before) + (Margin(k, indent, item) + EntryText(d, k, indent))))
  {
    var own := Glue(Margin(k, indent, item), EntryText(d, k, indent));
    GlueIs(Margin(k, indent, item), EntryText(d, k, indent));
    GlueIs(CommentLines(d.notes[k].before), own);
    GlueIs(FieldsText(d, k, indent, item), FieldText(d, k, indent, item));
  }

  method WriteComments(lines: seq<string>) returns (out: string)
    ensures Same(out, CommentLines(lines))
  {
    out := "";
    assert lines[0..] == lines;
    WriteNothing(CommentLines(lines));
    for i := 0 to |lines|
      invariant Written(CommentLines(lines), out, CommentLines(lines[i..]))
    {
      assert lines[i..][1..] == lines[i + 1..];
      WriteMore(CommentLines(lines), out, lines[i] + "\n", CommentLines(lines[i + 1..]));
      out := out + (lines[i] + "\n");
    }
    WroteAll(CommentLines(lines), out);
  }

  /** Writes entry k of a map: the comments before it and its line. */
  method PutLine(out: string, k: nat, indent: nat, item: bool, key: string, text: string, note: Note, ghost d: Doc)
    returns (more: string)
    requires HasLine(d, k, key, text, note) && Same(out, FieldsText(d, k, indent, item))
    ensures Same(more, FieldsText(d, k + 1, indent, item))
  {
    LineWritten(d, k, indent, item, key, text, note);
    var comments := WriteComments(note.before);
    more := out + (comments + (Margin(k, indent, item) + ValueLine(key, text, note.after)));
  }

  /** Writes entry k of a map: the comments before it, its line, and the block below it. */
  method PutBlock(out: string, k: nat, indent: nat, key: string, block: string, note: Note, ghost d: Doc, ghost value: Doc)
    returns (more: string)
    requires HasBlock(d, k, key, value, note) && Same(block, DocText(value, indent + 2))
    requires Same(out, FieldsText(d, k, indent, false))
    ensures Same(more, FieldsText(d, k + 1, indent, false))
  {
    BlockWritten(d, k, indent, key, value, note);
    var comments := WriteComments(note.before);
    more := out + (comments + (Margin(k, indent, false) + (KeyOnly(key, note.after) + block)));
  }

  // ---------------------------------------------------------------- routes.yml

  /** What a slot is. */
  method StartSlot(s: Slot) returns (out: string)
    ensures Same(out, FieldsText(SlotDoc(s), 4, 4, true))
  {
    ghost var d := SlotDoc(s);
    forall k | 0 <= k < 4 { ScalarText(d.values[k]); }
    var name := YamlQuote(s.name);
    out := PutLine("", 0, 4, true, "name", name, QUIET, d);
    out := PutLine(out, 1, 4, true, "type", WordOf(SLOT_WORDS, s.kind), QUIET, d);
    out := PutLine(out, 2, 4, true, "srcChannel", IntText(s.srcChannel), QUIET, d);
    out := PutLine(out, 3, 4, true, "streamId", IntText(s.streamId), QUIET, d);
  }

  method WriteSlot(s: Slot) returns (out: string)
    ensures Same(out, ItemText(SlotDoc(s), 2))
  {
    ghost var d := SlotDoc(s);
    ScalarText(d.values[4]);
    ScalarText(d.values[5]);
    out := StartSlot(s);
    out := PutLine(out, 4, 4, true, "enabled", if s.enabled != 0 then "true" else "false", QUIET, d);
    out := PutLine(out, 5, 4, true, "loopback", if s.loopback != 0 then "true" else "false", QUIET, d);
  }

  method WriteSlots(slots: seq<Slot>) returns (out: string)
    ensures Same(out, DocText(Rows(SlotDocs(slots)), 2))
  {
    ghost var d := Rows(SlotDocs(slots));
    out := "";
    for i := 0 to |slots|
      invariant Same(out, RowsText(d, i, 2))
    {
      var item := WriteSlot(slots[i]);
      GlueIs(out, item);
      out := out + item;
    }
  }

  /** A file that begins with the routes. */
  ghost predicate BeginsWithRoutes(d: Doc, version: string, comments: seq<string>, inputs: Doc, outputs: Doc) {
    && HasLine(d, 0, "version", version, Note(comments, ""))
    && HasBlock(d, 1, "inputs", inputs, QUIET) && HasBlock(d, 2, "outputs", outputs, QUIET)
  }

  method PutRoutes(version: string, comments: seq<string>, inRows: string, outRows: string, ghost d: Doc, ghost inputs: Doc,
                   ghost outputs: Doc)
    returns (out: string)
    requires BeginsWithRoutes(d, version, comments, inputs, outputs)
    requires Same(inRows, DocText(inputs, 2)) && Same(outRows, DocText(outputs, 2))
    ensures Same(out, FieldsText(d, 3, 0, false))
  {
    out := PutLine("", 0, 0, false, "version", version, Note(comments, ""), d);
    out := PutBlock(out, 1, 0, "inputs", inRows, QUIET, d, inputs);
    out := PutBlock(out, 2, 0, "outputs", outRows, QUIET, d, outputs);
  }

  method WriteRoutes(t: Table, w: Wording, ghost d: Doc) returns (out: string)
    requires BeginsWithRoutes(d, IntText(t.version), w.routes, Rows(SlotDocs(t.inputs)), Rows(SlotDocs(t.outputs)))
    ensures Same(out, FieldsText(d, 3, 0, false))
  {
    var inputs := WriteSlots(t.inputs);
    var outputs := WriteSlots(t.outputs);
    out := PutRoutes(IntText(t.version), w.routes, inputs, outputs, d, Rows(SlotDocs(t.inputs)), Rows(SlotDocs(t.outputs)));
  }

  /** SerializeRoutes(). */
  method SerializeRoutes(t: Table, w: Wording) returns (out: string)
    requires ValidSlots(t.inputs) && ValidSlots(t.outputs) && GoodWording(w)
    ensures out == RoutesText(t, w)
  {
    ghost var d := RoutesDoc(t, w);
    ScalarText(d.values[0]);
    out := WriteRoutes(t, w, d);
    RoutesGood(t, w);
    DocTextIs(d, 0);
  }

  // ---------------------------------------------------------------- settings.yml

  method WriteClock(c: Clock) returns (out: string)
    ensures Same(out, DocText(ClockDoc(c), 2))
  {
    ghost var d := ClockDoc(c);
    forall k | 0 <= k < 3 { ScalarText(d.values[k]); }
    out := PutLine("", 0, 2, false, "sampleRate", IntText(c.sampleRate), QUIET, d);
    out := PutLine(out, 1, 2, false, "bitDepth", IntText(c.bitDepth), QUIET, d);
    out := PutLine(out, 2, 2, false, "asioBuffer", IntText(c.asioBuffer), QUIET, d);
  }

  /** What follows the part i of a flow list, separator included. */
  ghost function PartsFrom(parts: seq<Doc>, i: nat): string
    requires i <= |parts|
  {
    if i == |parts| then "" else (if i > 0 then ", " else "") + Text(FlowToks(parts[i..]))
  }

  lemma NextPart(parts: seq<Doc>, i: nat)
    requires i < |parts|
    ensures Same(PartsFrom(parts, i), (if i > 0 then ", " else "") + TokText(ScalarTok(parts[i])) + PartsFrom(parts, i + 1))
  {
    var toks, t := FlowToks(parts[i..]), TokText(ScalarTok(parts[i]));
    var comma := if i > 0 then ", " else "";
    assert parts[i..][1..] == parts[i + 1..];
    if i + 1 == |parts| {
      TextOfOne(ScalarTok(parts[i]));
      assert toks == [ScalarTok(parts[i])];
      assert comma + t + "" == comma + t;
    } else {
      FirstTok(Plain(", "), FlowToks(parts[i + 1..]));
      assert toks[1..] == [Plain(", ")] + FlowToks(parts[i + 1..]);
      Regroup(comma, t, ", " + Text(FlowToks(parts[i + 1..])));
    }
  }

  /** A flow list: its texts in brackets, commas between. */
  method WriteList(texts: seq<string>, ghost parts: seq<Doc>) returns (out: string)
    requires |texts| == |parts| && forall k :: 0 <= k < |parts| ==> texts[k] == TokText(ScalarTok(parts[k]))
    ensures Same(out, InlineText(Flow(parts)))
  {
    ghost var whole := Text(FlowToks(parts));
    assert parts[0..] == parts && "" + Text(FlowToks(parts)) == Text(FlowToks(parts));
    out := "";
    WriteNothing(whole);
    for i := 0 to |texts|
      invariant Written(whole, out, PartsFrom(parts, i))
    {
      NextPart(parts, i);
      var part := (if i > 0 then ", " else "") + texts[i];
      WriteMore(whole, out, part, PartsFrom(parts, i + 1));
      out := out + part;
    }
    WroteAll(whole, out);
    ListText(parts);
    out := "[" + out + "]";
  }

  method WriteNumbers(ns: seq<nat>) returns (out: string)
    ensures Same(out, InlineText(Flow(NumberDocs(ns))))
  {
    var texts := seq(|ns|, k requires 0 <= k < |ns| => IntText(ns[k]));
    out := WriteList(texts, NumberDocs(ns));
  }

  /** The local buffers. */
  method StartBuffers(b: Buffers, w: Wording) returns (out: string)
    ensures Same(out, FieldsText(BuffersDoc(b, w), 3, 2, false))
  {
    ghost var d := BuffersDoc(b, w);
    ScalarText(d.values[0]);
    ScalarText(d.values[1]);
    var bridge := WriteNumbers(b.bridge);
    out := PutLine("", 0, 2, false, "hw", IntText(b.hw), Note([], w.hwBuffer), d);
    out := PutLine(out, 1, 2, false, "virtual", IntText(b.virtual), QUIET, d);
    out := PutLine(out, 2, 2, false, "bridge", bridge, QUIET, d);
  }

  method WriteBuffers(b: Buffers, w: Wording) returns (out: string)
    ensures Same(out, DocText(BuffersDoc(b, w), 2))
  {
    ghost var d := BuffersDoc(b, w);
    forall k | 3 <= k < 7 { ScalarText(d.values[k]); }
    out := StartBuffers(b, w);
    out := PutLine(out, 3, 2, false, "networkPcm", IntText(b.networkPcm), QUIET, d);
    out := PutLine(out, 4, 2, false, "networkVorbis", IntText(b.networkVorbis), QUIET, d);
    out := PutLine(out, 5, 2, false, "jitterPcm", IntText(b.jitterPcm), QUIET, d);
    out := PutLine(out, 6, 2, false, "jitterVorbis", IntText(b.jitterVorbis), QUIET, d);
  }

  /** How many devices of one direction are written: up to the last one listed. */
  method CountListed(ids: seq<string>) returns (count: nat)
    requires ids != []
    ensures count == Listed(ids)
  {
    count := 1;
    for d := 1 to |ids|
      invariant count <= d && count == Listed(ids[..d])
    {
      assert ids[..d + 1][..d] == ids[..d] && ids[..d + 1][d] == ids[d];
      if ids[d] != "" { count := d + 1; }
    }
    assert ids[..|ids|] == ids;
  }

  method WriteIds(d: Devices, n: nat) returns (out: string)
    requires n <= |d.ids|
    ensures Same(out, InlineText(Flow(IdDocs(d, n))))
  {
    var texts: seq<string> := [];
    for i := 0 to n
      invariant |texts| == i && forall k :: 0 <= k < i ==> texts[k] == Quote(d.ids[k])
    {
      var id := YamlQuote(d.ids[i]);
      texts := texts + [id];
    }
    out := WriteList(texts, IdDocs(d, n));
  }

  method WriteModes(d: Devices, n: nat) returns (out: string)
    requires n <= |d.modes|
    ensures Same(out, InlineText(Flow(ModeDocs(d, n))))
  {
    var texts := seq(n, k requires 0 <= k < n => WordOf(MODE_WORDS, d.modes[k]));
    out := WriteList(texts, ModeDocs(d, n));
  }

  method WriteDevices(render: Devices, capture: Devices, w: Wording) returns (out: string)
    requires ValidDevices(render) && ValidDevices(capture)
    ensures Same(out, DocText(DevicesDoc(render, capture, w), 2))
  {
    ghost var d := DevicesDoc(render, capture, w);
    var count := CountListed(render.ids);
    var list := WriteIds(render, count);
    out := PutLine("", 0, 2, false, "outputs", list, Note(w.modes, ""), d);
    list := WriteModes(render, count);
    out := PutLine(out, 1, 2, false, "outputModes", list, QUIET, d);
    count := CountListed(capture.ids);
    list := WriteIds(capture, count);
    out := PutLine(out, 2, 2, false, "inputs", list, QUIET, d);
    list := WriteModes(capture, count);
    out := PutLine(out, 3, 2, false, "inputModes", list, QUIET, d);
  }

  method WriteCable(c: Cable) returns (out: string)
    ensures Same(out, ItemText(CableDoc(c), 4))
  {
    ghost var d := CableDoc(c);
    forall k | 0 <= k < 2 { ScalarText(d.values[k]); }
    out := PutLine("", 0, 6, true, "channels", IntText(c.channels), QUIET, d);
    out := PutLine(out, 1, 6, true, "format", WordOf(FORMAT_WORDS, c.format), QUIET, d);
  }

  method WriteCables(cables: seq<Cable>) returns (out: string)
    ensures Same(out, DocText(Rows(CableDocs(cables)), 4))
  {
    ghost var d := Rows(CableDocs(cables));
    out := "";
    for i := 0 to |cables|
      invariant Same(out, RowsText(d, i, 4))
    {
      var item := WriteCable(cables[i]);
      GlueIs(out, item);
      out := out + item;
    }
  }

  method WriteVirtual(name: string, cables: seq<Cable>, w: Wording) returns (out: string)
    ensures Same(out, DocText(VirtualDoc(name, cables, w), 2))
  {
    ghost var d := VirtualDoc(name, cables, w);
    ScalarText(d.values[0]);
    var quoted := YamlQuote(name);
    out := PutLine("", 0, 2, false, "name", quoted, QUIET, d);
    var rows := WriteCables(cables);
    out := PutBlock(out, 1, 2, "cables", rows, Note([], w.cables), d, Rows(CableDocs(cables)));
  }

  method WriteStream(s: Stream) returns (out: string)
    requires ValidStream(s)
    ensures Same(out, ItemText(StreamDoc(s), 4))
  {
    ghost var d := StreamDoc(s);
    forall k | 0 <= k < 5 { ScalarText(d.values[k]); }
    var ip := YamlQuote(s.ip);
    out := PutLine("", 0, 6, true, "ip", ip, QUIET, d);
    out := PutLine(out, 1, 6, true, "port", IntText(s.port), QUIET, d);
    out := PutLine(out, 2, 6, true, "codec", WordOf(CODEC_WORDS, s.codec), QUIET, d);
    out := PutLine(out, 3, 6, true, "quality", QualityText(s.quality), QUIET, d);
    out := PutLine(out, 4, 6, true, "channels", IntText(s.channels), QUIET, d);
  }

  method WriteStreams(streams: seq<Stream>) returns (out: string)
    requires ValidStreams(streams)
    ensures Same(out, DocText(Rows(StreamDocs(streams)), 4))
  {
    ghost var d := Rows(StreamDocs(streams));
    out := "";
    for i := 0 to |streams|
      invariant Same(out, RowsText(d, i, 4))
    {
      var item := WriteStream(streams[i]);
      GlueIs(out, item);
      out := out + item;
    }
  }

  method WriteNetwork(tx: seq<Stream>, rx: seq<Stream>) returns (out: string)
    requires ValidStreams(tx) && ValidStreams(rx)
    ensures Same(out, DocText(NetworkDoc(tx, rx), 2))
  {
    ghost var d := NetworkDoc(tx, rx);
    var rows := WriteStreams(tx);
    out := PutBlock("", 0, 2, "tx", rows, QUIET, d, Rows(StreamDocs(tx)));
    rows := WriteStreams(rx);
    out := PutBlock(out, 1, 2, "rx", rows, QUIET, d, Rows(StreamDocs(rx)));
  }

  /** The blocks of the settings. */
  datatype Five<T> = Five(clock: T, buffers: T, hwDevices: T, virtualCables: T, network: T)

  ghost function SettingsDocs(t: Table, w: Wording): Five<Doc>
    requires Validates(t)
  {
    Five(ClockDoc(t.clock), BuffersDoc(t.buffers, w), DevicesDoc(t.render, t.capture, w),
         VirtualDoc(t.virtualName, t.cables, w), NetworkDoc(t.tx, t.rx))
  }

  /** The entries from number k on are the settings without their version. */
  ghost predicate EndsWithSettings(d: Doc, k: nat, docs: Five<Doc>, w: Wording, before: seq<string>) {
    && d.Fields? && |d.keys| == k + 5
    && HasBlock(d, k, "clock", docs.clock, Note(before, w.clock))
    && HasBlock(d, k + 1, "buffers", docs.buffers, Note([], w.buffers))
    && HasBlock(d, k + 2, "hwDevices", docs.hwDevices, Note([], w.hwDevices))
    && HasBlock(d, k + 3, "virtualCables", docs.virtualCables, QUIET)
    && HasBlock(d, k + 4, "network", docs.network, Note([], w.network))
  }

  ghost predicate AreWritten(blocks: Five<string>, docs: Five<Doc>) {
    && Same(blocks.clock, DocText(docs.clock, 2)) && Same(blocks.buffers, DocText(docs.buffers, 2))
    && Same(blocks.hwDevices, DocText(docs.hwDevices, 2)) && Same(blocks.virtualCables, DocText(docs.virtualCables, 2))
    && Same(blocks.network, DocText(docs.network, 2))
  }

  /** The settings, in a file that ends with them. */
  method PutSettings(start: string, k: nat, w: Wording, before: seq<string>, blocks: Five<string>, ghost d: Doc,
                     ghost docs: Five<Doc>)
    returns (out: string)
    requires EndsWithSettings(d, k, docs, w, before) && AreWritten(blocks, docs) && Same(start, FieldsText(d, k, 0, false))
    ensures Same(out, DocText(d, 0))
  {
    out := PutBlock(start, k, 0, "clock", blocks.clock, Note(before, w.clock), d, docs.clock);
    out := PutBlock(out, k + 1, 0, "buffers", blocks.buffers, Note([], w.buffers), d, docs.buffers);
    out := PutBlock(out, k + 2, 0, "hwDevices", blocks.hwDevices, Note([], w.hwDevices), d, docs.hwDevices);
    out := PutBlock(out, k + 3, 0, "virtualCables", blocks.virtualCables, QUIET, d, docs.virtualCables);
    out := PutBlock(out, k + 4, 0, "network", blocks.network, Note([], w.network), d, docs.network);
  }

  method WriteSettings(t: Table, w: Wording) returns (blocks: Five<string>)
    requires Validates(t)
    ensures AreWritten(blocks, SettingsDocs(t, w))
  {
    var clock := WriteClock(t.clock);
    var buffers := WriteBuffers(t.buffers, w);
    var devices := WriteDevices(t.render, t.capture, w);
    var cables := WriteVirtual(t.virtualName, t.cables, w);
    var network := WriteNetwork(t.tx, t.rx);
    blocks := Five(clock, buffers, devices, cables, network);
  }

  /** Keys, values and notes that end with those of the settings. */
  lemma SettingsAtEnd(d: Doc, k: nat, t: Table, w: Wording, before: seq<string>)
    requires Validates(t) && d.Fields? && |d.keys| == |d.values| == |d.notes| == k + 5
    requires Same(d.keys[k..], SETTINGS_KEYS[1..]) && Same(d.values[k..], SettingsValues(t, w))
    requires Same(d.notes[k..], SettingsNotes(w, before))
    ensures EndsWithSettings(d, k, SettingsDocs(t, w), w, before)
  {
    forall j | 0 <= j < 5
      ensures d.keys[k + j] == SETTINGS_KEYS[1..][j] && d.values[k + j] == SettingsValues(t, w)[j]
              && d.notes[k + j] == SettingsNotes(w, before)[j]
    {
      assert d.keys[k..][j] == d.keys[k + j] && d.values[k..][j] == d.values[k + j] && d.notes[k..][j] == d.notes[k + j];
    }
  }

  lemma SettingsEntries(t: Table, w: Wording)
    requires Validates(t)
    ensures HasLine(SettingsDoc(t, w), 0, "version", IntText(t.version), Note(w.settings, ""))
    ensures EndsWithSettings(SettingsDoc(t, w), 1, SettingsDocs(t, w), w, [])
  {
    var d := SettingsDoc(t, w);
    ScalarText(d.values[0]);
    assert d.values[1..] == SettingsValues(t, w) && d.notes[1..] == SettingsNotes(w, []);
    SettingsAtEnd(d, 1, t, w, []);
  }

  lemma EverythingEnds(t: Table, w: Wording)
    requires Validates(t)
    ensures EndsWithSettings(EverythingDoc(t, w), 3, SettingsDocs(t, w), w, w.between)
  {
    var d := EverythingDoc(t, w);
    assert d.keys[3..] == SETTINGS_KEYS[1..] && d.values[3..] == SettingsValues(t, w);
    assert d.notes[3..] == SettingsNotes(w, w.between);
    SettingsAtEnd(d, 3, t, w, w.between);
  }

  lemma EverythingBegins(t: Table, w: Wording)
    requires Validates(t)
    ensures BeginsWithRoutes(EverythingDoc(t, w), IntText(t.version), w.routes, Rows(SlotDocs(t.inputs)), Rows(SlotDocs(t.outputs)))
  {
    ScalarText(EverythingDoc(t, w).values[0]);
  }

  lemma EverythingRendered(t: Table, w: Wording)
    requires Validates(t) && GoodWording(w)
    ensures Same(DocText(EverythingDoc(t, w), 0), EverythingText(t, w))
  {
    EverythingGood(t, w);
    DocTextIs(EverythingDoc(t, w), 0);
  }

  lemma SettingsRendered(t: Table, w: Wording)
    requires Validates(t) && GoodWording(w)
    ensures Same(DocText(SettingsDoc(t, w), 0), SettingsText(t, w))
  {
    SettingsGood(t, w);
    DocTextIs(SettingsDoc(t, w), 0);
  }

  /** SerializeSettings(t, true). */
  method SerializeSettings(t: Table, w: Wording) returns (out: string)
    requires Validates(t) && GoodWording(w)
    ensures out == SettingsText(t, w)
  {
    ghost var d := SettingsDoc(t, w);
    SettingsEntries(t, w);
    out := PutLine("", 0, 0, false, "version", IntText(t.version), Note(w.settings, ""), d);
    var blocks := WriteSettings(t, w);
    out := PutSettings(out, 1, w, [], blocks, d, SettingsDocs(t, w));
    SettingsRendered(t, w);
  }

  /** SerializeEverything(). */
  method SerializeEverything(t: Table, w: Wording) returns (out: string)
    requires Validates(t) && GoodWording(w)
    ensures out == EverythingText(t, w)
  {
    ghost var d := EverythingDoc(t, w);
    EverythingBegins(t, w);
    out := WriteRoutes(t, w, d);
    var blocks := WriteSettings(t, w);
    EverythingEnds(t, w);
    out := PutSettings(out, 3, w, w.between, blocks, d, SettingsDocs(t, w));
    EverythingRendered(t, w);
  }
}
