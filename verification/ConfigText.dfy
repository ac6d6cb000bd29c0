/** Writing the config files. The wording of their comments is a parameter: nothing depends on it but that a comment is
    one. */
module ConfigText {
  import opened YamlText
  import opened YamlInline
  import opened YamlRender
  import opened YamlPrint
  import opened ConfigTable
  import opened ConfigRead

  // ---------------------------------------------------------------- comments

  /** The comments of the two files; `between` begins the settings in an Everything file. */
  datatype Wording = Wording(routes: seq<string>, settings: seq<string>, between: seq<string>, clock: string,
                             buffers: string, hwBuffer: string, hwDevices: string, modes: seq<string>, cables: string,
                             network: string)

  predicate GoodComments(lines: seq<string>) {
    forall k :: 0 <= k < |lines| ==> CommentText(lines[k])
  }

  predicate GoodWording(w: Wording) {
    && GoodComments(w.routes) && GoodComments(w.settings) && GoodComments(w.between) && GoodComments(w.modes)
    && NoteText(w.clock) && NoteText(w.buffers) && NoteText(w.hwBuffer) && NoteText(w.hwDevices) && NoteText(w.cables)
    && NoteText(w.network)
  }

  const QUIET := Note([], "")

  function Quiet(n: nat): (notes: seq<Note>)
    ensures |notes| == n && forall k :: 0 <= k < n ==> notes[k] == QUIET
  {
    seq(n, _ => QUIET)
  }

  // ---------------------------------------------------------------- documents

  function NumberDoc(n: int): Doc {
    Word(IntText(n))
  }

  function SlotDoc(s: Slot): Doc {
    Fields(SLOT_KEYS,
           [Str(s.name), Word(WordOf(SLOT_WORDS, s.kind)), NumberDoc(s.srcChannel), NumberDoc(s.streamId),
            Word(WordOf(BOOL_WORDS, if s.enabled != 0 then 1 else 0)), Word(WordOf(BOOL_WORDS, if s.loopback != 0 then 1 else 0))],
           Quiet(6))
  }

  function SlotDocs(slots: seq<Slot>): (docs: seq<Doc>)
    ensures |docs| == |slots| && forall k :: 0 <= k < |slots| ==> docs[k] == SlotDoc(slots[k])
  {
    seq(|slots|, k requires 0 <= k < |slots| => SlotDoc(slots[k]))
  }

  function RouteValues(t: Table): seq<Doc> {
    [NumberDoc(t.version), Rows(SlotDocs(t.inputs)), Rows(SlotDocs(t.outputs))]
  }

  function RouteNotes(w: Wording): seq<Note> {
    [Note(w.routes, ""), QUIET, QUIET]
  }

  /** routes.yml. */
  function RoutesDoc(t: Table, w: Wording): Doc {
    Fields(ROUTE_KEYS, RouteValues(t), RouteNotes(w))
  }

  function ClockDoc(c: Clock): Doc {
    Fields(CLOCK_KEYS, [NumberDoc(c.sampleRate), NumberDoc(c.bitDepth), NumberDoc(c.asioBuffer)], Quiet(3))
  }

  function NumberDocs(ns: seq<nat>): (docs: seq<Doc>)
    ensures |docs| == |ns| && forall k :: 0 <= k < |ns| ==> docs[k] == NumberDoc(ns[k])
  {
    seq(|ns|, k requires 0 <= k < |ns| => NumberDoc(ns[k]))
  }

  function BuffersDoc(b: Buffers, w: Wording): Doc {
    Fields(BUFFER_KEYS,
           [NumberDoc(b.hw), NumberDoc(b.virtual), Flow(NumberDocs(b.bridge)), NumberDoc(b.networkPcm),
            NumberDoc(b.networkVorbis), NumberDoc(b.jitterPcm), NumberDoc(b.jitterVorbis)],
           [Note([], w.hwBuffer)] + Quiet(6))
  }

  /** One more than the last listed device; device 0 is always listed. */
  function Listed(ids: seq<string>): (n: nat)
    requires ids != []
    ensures 1 <= n <= |ids| && forall k :: n <= k < |ids| ==> ids[k] == ""
    decreases |ids|
  {
    if |ids| == 1 || ids[|ids| - 1] != "" then |ids| else Listed(ids[..|ids| - 1])
  }

  function IdDocs(d: Devices, n: nat): (docs: seq<Doc>)
    requires n <= |d.ids|
    ensures |docs| == n && forall k :: 0 <= k < n ==> docs[k] == Str(d.ids[k])
  {
    seq(n, k requires 0 <= k < n => Str(d.ids[k]))
  }

  function ModeDocs(d: Devices, n: nat): (docs: seq<Doc>)
    requires n <= |d.modes|
    ensures |docs| == n && forall k :: 0 <= k < n ==> docs[k] == Word(WordOf(MODE_WORDS, d.modes[k]))
  {
    seq(n, k requires 0 <= k < n => Word(WordOf(MODE_WORDS, d.modes[k])))
  }

  function DevicesDoc(render: Devices, capture: Devices, w: Wording): Doc
    requires ValidDevices(render) && ValidDevices(capture)
  {
    var r, c := Listed(render.ids), Listed(capture.ids);
    Fields(DEVICE_KEYS, [Flow(IdDocs(render, r)), Flow(ModeDocs(render, r)), Flow(IdDocs(capture, c)), Flow(ModeDocs(capture, c))],
           [Note(w.modes, "")] + Quiet(3))
  }

  function CableDoc(c: Cable): Doc {
    Fields(CABLE_KEYS, [NumberDoc(c.channels), Word(WordOf(FORMAT_WORDS, c.format))], Quiet(2))
  }

  function CableDocs(cables: seq<Cable>): (docs: seq<Doc>)
    ensures |docs| == |cables| && forall k :: 0 <= k < |cables| ==> docs[k] == CableDoc(cables[k])
  {
    seq(|cables|, k requires 0 <= k < |cables| => CableDoc(cables[k]))
  }

  function VirtualDoc(name: string, cables: seq<Cable>, w: Wording): Doc {
    Fields(CABLES_KEYS, [Str(name), Rows(CableDocs(cables))], [QUIET, Note([], w.cables)])
  }

  function StreamDoc(s: Stream): Doc
    requires ValidStream(s)
  {
    Fields(STREAM_KEYS,
           [Str(s.ip), NumberDoc(s.port), Word(WordOf(CODEC_WORDS, s.codec)), Word(QualityText(s.quality)), NumberDoc(s.channels)],
           Quiet(5))
  }

  function StreamDocs(streams: seq<Stream>): (docs: seq<Doc>)
    requires forall k :: 0 <= k < |streams| ==> ValidStream(streams[k])
    ensures |docs| == |streams| && forall k :: 0 <= k < |streams| ==> docs[k] == StreamDoc(streams[k])
  {
    seq(|streams|, k requires 0 <= k < |streams| => StreamDoc(streams[k]))
  }

  function NetworkDoc(tx: seq<Stream>, rx: seq<Stream>): Doc
    requires ValidStreams(tx) && ValidStreams(rx)
  {
    Fields(NETWORK_KEYS, [Rows(StreamDocs(tx)), Rows(StreamDocs(rx))], Quiet(2))
  }

  /** The settings after the version. */
  function SettingsValues(t: Table, w: Wording): (values: seq<Doc>)
    requires Validates(t)
    ensures |values| == 5
  {
    [ClockDoc(t.clock), BuffersDoc(t.buffers, w), DevicesDoc(t.render, t.capture, w),
     VirtualDoc(t.virtualName, t.cables, w), NetworkDoc(t.tx, t.rx)]
  }

  function SettingsNotes(w: Wording, before: seq<string>): (notes: seq<Note>)
    ensures |notes| == 5
  {
    [Note(before, w.clock), Note([], w.buffers), Note([], w.hwDevices), QUIET, Note([], w.network)]
  }

  /** settings.yml. */
  function SettingsDoc(t: Table, w: Wording): Doc
    requires Validates(t)
  {
    Fields(SETTINGS_KEYS, [NumberDoc(t.version)] + SettingsValues(t, w), [Note(w.settings, "")] + SettingsNotes(w, []))
  }

  /** Routes and settings in one file. */
  function EverythingDoc(t: Table, w: Wording): Doc
    requires Validates(t)
  {
    Fields(ROUTE_KEYS + SETTINGS_KEYS[1..], RouteValues(t) + SettingsValues(t, w), RouteNotes(w) + SettingsNotes(w, w.between))
  }
}
