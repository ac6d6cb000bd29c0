/** Reading back what was written restores the table. */
module ConfigRoundTrip {
  import opened YamlText
  import opened YamlInline
  import opened YamlLines
  import opened YamlParser
  import opened YamlRender
  import opened YamlPrint
  import opened YamlRoundTrip
  import opened ConfigTable
  import opened ConfigRead
  import opened ConfigText

  // ---------------------------------------------------------------- keys

  predicate GoodKeys(keys: seq<string>) {
    Distinct(keys) && forall k :: 0 <= k < |keys| ==> GoodKey(keys[k])
  }

  lemma RouteKeys()
    ensures GoodKeys(ROUTE_KEYS) && GoodKeys(NETWORK_KEYS) && GoodKeys(CABLE_KEYS) && GoodKeys(CABLES_KEYS)
  {
    assert NETWORK_KEYS[0][0] == 't' && NETWORK_KEYS[1][0] == 'r';
    assert |ROUTE_KEYS[0]| == 7 && |ROUTE_KEYS[1]| == 6 && |ROUTE_KEYS[2]| == 7;
    assert ROUTE_KEYS[0][0] == 'v' && ROUTE_KEYS[2][0] == 'o';
    assert |CABLE_KEYS[0]| == 8 && |CABLE_KEYS[1]| == 6;
    assert |CABLES_KEYS[0]| == 4 && |CABLES_KEYS[1]| == 6;
  }

  lemma SlotKeys()
    ensures GoodKeys(SLOT_KEYS)
  {
    assert SLOT_KEYS[0][0] == 'n' && SLOT_KEYS[1][0] == 't' && SLOT_KEYS[2][1] == 'r' && SLOT_KEYS[3][1] == 't';
    assert SLOT_KEYS[2][0] == 's' && SLOT_KEYS[3][0] == 's' && SLOT_KEYS[4][0] == 'e' && SLOT_KEYS[5][0] == 'l';
  }

  lemma StreamKeys()
    ensures GoodKeys(STREAM_KEYS)
  {
    assert |STREAM_KEYS[0]| == 2 && |STREAM_KEYS[1]| == 4 && |STREAM_KEYS[2]| == 5 && |STREAM_KEYS[3]| == 7 && |STREAM_KEYS[4]| == 8;
  }

  lemma BufferKeys()
    ensures GoodKeys(BUFFER_KEYS)
  {
    assert |BUFFER_KEYS[0]| == 2 && |BUFFER_KEYS[1]| == 7 && |BUFFER_KEYS[2]| == 6 && |BUFFER_KEYS[3]| == 10;
    assert |BUFFER_KEYS[4]| == 13 && |BUFFER_KEYS[5]| == 9 && |BUFFER_KEYS[6]| == 12;
  }

  lemma DeviceKeys()
    ensures GoodKeys(CLOCK_KEYS) && GoodKeys(DEVICE_KEYS)
  {
    assert CLOCK_KEYS[0][0] == 's' && CLOCK_KEYS[1][0] == 'b' && CLOCK_KEYS[2][0] == 'a';
    assert |DEVICE_KEYS[0]| == 7 && |DEVICE_KEYS[1]| == 11 && |DEVICE_KEYS[2]| == 6 && |DEVICE_KEYS[3]| == 10;
  }

  lemma SettingsKeysOnly()
    ensures GoodKeys(SETTINGS_KEYS)
  {
    assert SETTINGS_KEYS[0][0] == 'v' && SETTINGS_KEYS[0][1] == 'e' && SETTINGS_KEYS[1][0] == 'c' && SETTINGS_KEYS[2][0] == 'b';
    assert SETTINGS_KEYS[3][0] == 'h' && SETTINGS_KEYS[4][0] == 'v' && SETTINGS_KEYS[4][1] == 'i' && SETTINGS_KEYS[5][0] == 'n';
  }

  lemma SettingsKeys()
    ensures GoodKeys(SETTINGS_KEYS) && GoodKeys(ROUTE_KEYS + SETTINGS_KEYS[1..])
  {
    RouteKeys();
    SettingsKeysOnly();
    assert SETTINGS_KEYS[1][0] == 'c' && SETTINGS_KEYS[2][0] == 'b' && SETTINGS_KEYS[3][0] == 'h';
    assert SETTINGS_KEYS[4][0] == 'v' && SETTINGS_KEYS[5][0] == 'n' && SETTINGS_KEYS[0] == ROUTE_KEYS[0];
    assert ROUTE_KEYS[1][0] == 'i' && ROUTE_KEYS[2][0] == 'o';
    var keys := ROUTE_KEYS + SETTINGS_KEYS[1..];
    forall i, j | 0 <= i < j < |keys| ensures Differ(keys, i, j) {
      if i >= 3 { assert Differ(SETTINGS_KEYS, i - 2, j - 2) && keys[i] == SETTINGS_KEYS[i - 2] && keys[j] == SETTINGS_KEYS[j - 2]; }
      if j >= 3 { assert keys[j] == SETTINGS_KEYS[j - 2]; }
    }
  }

  lemma {:induction false} LookupAt(keys: seq<string>, items: seq<Node>, k: nat)
    requires Distinct(keys) && k < |keys| == |items|
    ensures Lookup(keys, items, keys[k]) == Some(items[k])
    decreases k
  {
    if k > 0 {
      assert Differ(keys, 0, k);
      forall i, j | 0 <= i < j < |keys[1..]| ensures Differ(keys[1..], i, j) { assert Differ(keys, i + 1, j + 1); }
      LookupAt(keys[1..], items[1..], k - 1);
    }
  }

  lemma {:induction false} PartNode(parts: seq<Doc>, k: nat)
    requires k < |parts|
    ensures PartNodes(parts)[k] == NodeOf(parts[k])
    decreases k
  {
    if k > 0 { PartNode(parts[1..], k - 1); }
  }

  /** The node of a map, and of a list. */
  lemma BlockNode(d: Doc)
    requires d.Fields? || d.Rows? || d.Flow?
    ensures d.Fields? ==> NodeOf(d) == Map(d.keys, PartNodes(d.values))
    ensures d.Rows? ==> NodeOf(d) == Seq(PartNodes(d.rows))
    ensures d.Flow? ==> NodeOf(d) == Seq(PartNodes(d.parts))
  {
    var parts := if d.Fields? then d.values else if d.Rows? then d.rows else d.parts;
    PartsAreNodes(d, 0, parts);
    assert parts[0..] == parts;
  }

  /** A key of a written map is found, with its value. */
  lemma FindField(d: Doc, k: nat)
    requires d.Fields? && Distinct(d.keys) && k < |d.keys| == |d.values|
    ensures Find(NodeOf(d), d.keys[k]) == Some(NodeOf(d.values[k]))
  {
    BlockNode(d);
    PartNode(d.values, k);
    LookupAt(d.keys, PartNodes(d.values), k);
  }

  lemma AllKnown(d: Doc)
    requires d.Fields?
    ensures CheckMap(NodeOf(d), d.keys) == Ok(true)
  {
    BlockNode(d);
  }

  // ---------------------------------------------------------------- words and numbers

  lemma DigitsAreWord(s: string)
    requires s != "" && AllDigits(s)
    ensures GoodWord(s)
  {
    forall k | 0 <= k < |s| ensures IsWordChar(s[k]) { assert IsDigit(s[k]); }
  }

  lemma NumberIsWord(n: int)
    ensures GoodWord(IntText(n))
  {
    var digits := NatText(if n < 0 then -n else n);
    NatTextIs(if n < 0 then -n else n);
    DigitsAreWord(digits);
  }

  lemma QualityIsWord(m: int)
    requires 100000 <= m <= 1000000
    ensures GoodWord(QualityText(m))
  {
    if m < 1000000 {
      NatTextIs(m);
      FractionOfStripped(NatText(m), 100000);
      StripKeepsValue(NatText(m));
      DigitsAreWord(StripZeros(NatText(m)));
    }
  }

  predicate GoodWords(words: seq<string>) {
    forall k :: 0 <= k < |words| ==> GoodWord(words[k])
  }

  lemma WordsAreWords()
    ensures GoodWords(SLOT_WORDS) && GoodWords(FORMAT_WORDS) && GoodWords(MODE_WORDS) && GoodWords(CODEC_WORDS) && GoodWords(BOOL_WORDS)
  {
    SlotWordsAreWords();
    FormatWordsAreWords();
  }

  lemma SlotWordsAreWords()
    ensures GoodWords(SLOT_WORDS)
  {
  }

  lemma FormatWordsAreWords()
    ensures GoodWords(FORMAT_WORDS)
  {
  }

  lemma {:induction false} PlainCText(s: string)
    requires forall k :: 0 <= k < |s| ==> s[k] != '\0'
    ensures CText(s) == s
    decreases |s|
  {
    if s != "" { PlainCText(s[1..]); }
  }

  lemma WordCText(s: string)
    requires GoodWord(s)
    ensures CText(s) == s
  {
    forall k | 0 <= k < |s| ensures s[k] != '\0' { assert IsWordChar(s[k]); }
    PlainCText(s);
  }

  /** A number written is read back. */
  lemma NumberRead(n: int, lo: int, hi: int)
    requires lo <= n <= hi
    ensures ReadLong(NodeOf(NumberDoc(n)), lo, hi) == Ok(n)
  {
    NumberIsWord(n);
    WordCText(IntText(n));
    StrtollUndoesText(n);
  }

  lemma NatRead(n: nat, default: nat)
    requires U32(n)
    ensures ReadU32(Some(NodeOf(NumberDoc(n))), default) == Ok(n)
  {
    NumberRead(n, 0, 0xFFFF_FFFF);
  }

  lemma ChoiceRead(words: seq<string>, n: nat, default: nat)
    requires DifferentWords(words) && n < |words|
    ensures ReadWord(Some(NodeOf(Word(WordOf(words, n)))), words, default) == Ok(n)
  {
    NumberUndoesWord(words, n, 0);
  }

  lemma TextRead(s: string, size: nat, default: string)
    requires TextFits(s, size)
    ensures ReadText(Some(NodeOf(Str(s))), size, default) == Ok(s)
  {
    PlainCText(s);
  }

  lemma QualityRead(m: int, default: int)
    requires 100000 <= m <= 1000000
    ensures ReadFloat(Some(NodeOf(Word(QualityText(m)))), default) == Ok(m)
  {
    QualityIsWord(m);
    WordCText(QualityText(m));
    StrtofUndoesText(m);
  }

  lemma BoolRead(b: nat, default: nat)
    requires b <= 1
    ensures ReadBool(Some(NodeOf(Word(WordOf(BOOL_WORDS, if b != 0 then 1 else 0)))), default) == Ok(b)
  {
  }

  // ---------------------------------------------------------------- slots

  lemma SlotRead(s: Slot)
    requires ValidSlot(s) && SlotFits(s)
    ensures ReadSlot(NodeOf(SlotDoc(s))) == Ok(s)
  {
    var d := SlotDoc(s);
    SlotKeys();
    WordsDiffer();
    AllKnown(d);
    FindField(d, 0);
    FindField(d, 1);
    FindField(d, 2);
    FindField(d, 3);
    FindField(d, 4);
    FindField(d, 5);
    TextRead(s.name, NAME_LEN, "- empty -");
    ChoiceRead(SLOT_WORDS, s.kind, 0);
    NumberRead(s.srcChannel, -0x8000_0000, 0x7FFF_FFFF);
    NumberRead(s.streamId, -0x8000_0000, 0x7FFF_FFFF);
    BoolRead(s.enabled, 1);
    BoolRead(s.loopback, 0);
  }

  lemma {:induction false} SlotsRead(slots: seq<Slot>)
    requires forall k :: 0 <= k < |slots| ==> ValidSlot(slots[k]) && SlotFits(slots[k])
    ensures ReadSlots(PartNodes(SlotDocs(slots))) == Ok(slots)
    decreases |slots|
  {
    if slots != [] {
      SlotRead(slots[0]);
      assert SlotDocs(slots)[1..] == SlotDocs(slots[1..]);
      SlotsRead(slots[1..]);
      assert [slots[0]] + slots[1..] == slots;
    }
  }

  lemma SlotListRead(root: Doc, k: nat, slots: seq<Slot>)
    requires root.Fields? && Distinct(root.keys) && k < |root.keys| == |root.values| && root.values[k] == Rows(SlotDocs(slots))
    requires ValidSlots(slots) && forall k :: 0 <= k < |slots| ==> SlotFits(slots[k])
    ensures ReadSlotList(NodeOf(root), root.keys[k]) == Ok(slots)
  {
    FindField(root, k);
    BlockNode(Rows(SlotDocs(slots)));
    SlotsRead(slots);
  }

  /** The version of the file, if it is newer. */
  function Newer(t: Table, version: nat): Table {
    if version > t.version then t.(version := version) else t
  }

  lemma VersionRead(root: Doc, version: nat, t: Table)
    requires root.Fields? && Distinct(root.keys) && 0 < |root.keys| == |root.values| && root.keys[0] == "version"
    requires root.values[0] == NumberDoc(version) && U32(version)
    ensures TakeVersion(NodeOf(root), t) == Ok(Newer(t, version))
  {
    FindField(root, 0);
    NatRead(version, 0);
  }

  /** The routes of a table, in another. */
  function WithRoutes(t: Table, from: Table): Table {
    Newer(t, from.version).(inputs := from.inputs, outputs := from.outputs)
  }

  lemma RoutesRead(t: Table, w: Wording, t0: Table)
    requires ValidSlots(t.inputs) && ValidSlots(t.outputs) && Fits(t)
    ensures ReadRoutes(NodeOf(RoutesDoc(t, w)), t0) == Ok(WithRoutes(t0, t))
  {
    var d := RoutesDoc(t, w);
    RouteKeys();
    AllKnown(d);
    VersionRead(d, t.version, t0);
    SlotListRead(d, 1, t.inputs);
    SlotListRead(d, 2, t.outputs);
  }

  // ---------------------------------------------------------------- settings

  lemma ClockRead(c: Clock)
    requires ValidClock(c)
    ensures ReadClock(Some(NodeOf(ClockDoc(c)))) == Ok(c)
  {
    var d := ClockDoc(c);
    DeviceKeys();
    AllKnown(d);
    FindField(d, 0);
    FindField(d, 1);
    FindField(d, 2);
    NatRead(c.sampleRate, DEFAULT_CLOCK.sampleRate);
    NatRead(c.bitDepth, DEFAULT_CLOCK.bitDepth);
    NatRead(c.asioBuffer, DEFAULT_CLOCK.asioBuffer);
  }

  lemma {:induction false} NumbersRead(ns: seq<nat>)
    requires forall k :: 0 <= k < |ns| ==> U32(ns[k])
    ensures ReadNumbers(PartNodes(NumberDocs(ns))) == Ok(ns)
    decreases |ns|
  {
    if ns != [] {
      NatRead(ns[0], 0);
      assert NumberDocs(ns)[1..] == NumberDocs(ns[1..]);
      NumbersRead(ns[1..]);
      assert [ns[0]] + ns[1..] == ns;
    }
  }

  lemma BridgeRead(b: Buffers)
    requires ValidBuffers(b)
    ensures ReadBridge(Some(NodeOf(Flow(NumberDocs(b.bridge))))) == Ok(b.bridge)
  {
    BlockNode(Flow(NumberDocs(b.bridge)));
    NumbersRead(b.bridge);
  }

  lemma BuffersRead(b: Buffers, w: Wording)
    requires ValidBuffers(b) && BuffersFit(b)
    ensures ReadBuffers(Some(NodeOf(BuffersDoc(b, w)))) == Ok(b)
  {
    var d, z := BuffersDoc(b, w), DEFAULT_BUFFERS;
    BufferKeys();
    AllKnown(d);
    FindField(d, 0);
    FindField(d, 1);
    FindField(d, 2);
    FindField(d, 3);
    FindField(d, 4);
    FindField(d, 5);
    FindField(d, 6);
    NatRead(b.hw, z.hw);
    NatRead(b.virtual, z.virtual);
    BridgeRead(b);
    NatRead(b.networkPcm, z.networkPcm);
    NatRead(b.networkVorbis, z.networkVorbis);
    NatRead(b.jitterPcm, z.jitterPcm);
    NatRead(b.jitterVorbis, z.jitterVorbis);
  }

  lemma {:induction false} IdsRead(d: Devices, from: nat, n: nat)
    requires ValidDevices(d) && from <= n <= HW_DEVICES
    ensures ReadIds(PartNodes(IdDocs(d, n)[from..])) == Ok(d.ids[from..n])
    decreases n - from
  {
    if from < n {
      TextRead(d.ids[from], ID_LEN, "");
      assert IdDocs(d, n)[from..][1..] == IdDocs(d, n)[from + 1..];
      IdsRead(d, from + 1, n);
      assert [d.ids[from]] + d.ids[from + 1..n] == d.ids[from..n];
    }
  }

  lemma {:induction false} ModesRead(d: Devices, from: nat, n: nat)
    requires ValidDevices(d) && from <= n <= HW_DEVICES
    ensures ReadModes(PartNodes(ModeDocs(d, n)[from..])) == Ok(d.modes[from..n])
    decreases n - from
  {
    if from < n {
      WordsDiffer();
      ChoiceRead(MODE_WORDS, d.modes[from], 0);
      assert ModeDocs(d, n)[from..][1..] == ModeDocs(d, n)[from + 1..];
      ModesRead(d, from + 1, n);
      assert [d.modes[from]] + d.modes[from + 1..n] == d.modes[from..n];
    }
  }

  /** What comes back of a direction's devices: the modes past the last one listed are not written. */
  function Kept(d: Devices): (r: Devices)
    requires ValidDevices(d)
    ensures ValidDevices(r)
  {
    Devices(d.ids, Over(d.modes[..Listed(d.ids)], NoDevices().modes))
  }

  /** Devices past the last one listed are exclusive. */
  predicate UnlistedExclusive(d: Devices)
    requires ValidDevices(d)
  {
    forall k :: Listed(d.ids) <= k < HW_DEVICES ==> d.modes[k] == 0
  }

  /** Everything comes back exactly if no unlisted device has another mode. */
  lemma KeptExactly(d: Devices)
    requires ValidDevices(d)
    ensures Kept(d) == d <==> UnlistedExclusive(d)
  {
    var n := Listed(d.ids);
    var read := Kept(d).modes;
    assert forall k :: n <= k < HW_DEVICES ==> read[k] == 0;
    if UnlistedExclusive(d) { assert read == d.modes; }
  }

  lemma DevicesRead(d: Devices)
    requires ValidDevices(d)
    ensures var n := Listed(d.ids);
            ReadDevices(Some(NodeOf(Flow(IdDocs(d, n)))), Some(NodeOf(Flow(ModeDocs(d, n))))) == Ok(Kept(d))
  {
    IdListRead(d, Listed(d.ids));
    ModeListRead(d, Listed(d.ids));
    UnlistedIds(d);
  }

  lemma IdListRead(d: Devices, n: nat)
    requires ValidDevices(d) && n <= HW_DEVICES
    ensures ReadIdList(Some(NodeOf(Flow(IdDocs(d, n))))) == Ok(d.ids[..n])
  {
    BlockNode(Flow(IdDocs(d, n)));
    IdsRead(d, 0, n);
    assert IdDocs(d, n)[0..] == IdDocs(d, n) && d.ids[0..n] == d.ids[..n];
  }

  lemma ModeListRead(d: Devices, n: nat)
    requires ValidDevices(d) && n <= HW_DEVICES
    ensures ReadModeList(Some(NodeOf(Flow(ModeDocs(d, n))))) == Ok(d.modes[..n])
  {
    BlockNode(Flow(ModeDocs(d, n)));
    ModesRead(d, 0, n);
    assert ModeDocs(d, n)[0..] == ModeDocs(d, n) && d.modes[0..n] == d.modes[..n];
  }

  /** The devices past the last one listed have no name to write. */
  lemma UnlistedIds(d: Devices)
    requires ValidDevices(d)
    ensures Over(d.ids[..Listed(d.ids)], NoDevices().ids) == d.ids
  {
    var n := Listed(d.ids);
    var read := Over(d.ids[..n], NoDevices().ids);
    forall k | 0 <= k < HW_DEVICES ensures read[k] == d.ids[k] {
      if k >= n { assert d.ids[k] == ""; }
    }
  }

  lemma HardwareRead(render: Devices, capture: Devices, w: Wording)
    requires ValidDevices(render) && ValidDevices(capture)
    ensures ReadHardware(Some(NodeOf(DevicesDoc(render, capture, w)))) == Ok(Hardware(Kept(render), Kept(capture)))
  {
    var d := DevicesDoc(render, capture, w);
    DeviceKeys();
    AllKnown(d);
    FindField(d, 0);
    FindField(d, 1);
    FindField(d, 2);
    FindField(d, 3);
    DevicesRead(render);
    DevicesRead(capture);
  }

  lemma CableRead(c: Cable)
    requires ValidCable(c)
    ensures ReadCable(NodeOf(CableDoc(c))) == Ok(c)
  {
    var d := CableDoc(c);
    RouteKeys();
    WordsDiffer();
    AllKnown(d);
    FindField(d, 0);
    FindField(d, 1);
    NatRead(c.channels, DEFAULT_CABLE.channels);
    ChoiceRead(FORMAT_WORDS, c.format, DEFAULT_CABLE.format);
  }

  lemma {:induction false} CablesRead(cables: seq<Cable>)
    requires forall k :: 0 <= k < |cables| ==> ValidCable(cables[k])
    ensures ReadCables(PartNodes(CableDocs(cables))) == Ok(cables)
    decreases |cables|
  {
    if cables != [] {
      CableRead(cables[0]);
      assert CableDocs(cables)[1..] == CableDocs(cables[1..]);
      CablesRead(cables[1..]);
      assert [cables[0]] + cables[1..] == cables;
    }
  }

  lemma OverAll<T>(read: seq<T>, rest: seq<T>)
    requires |read| == |rest|
    ensures Over(read, rest) == read
  {
  }

  lemma VirtualRead(name: string, cables: seq<Cable>, w: Wording)
    requires TextFits(name, NAME_LEN) && ValidCables(cables)
    ensures ReadVirtual(Some(NodeOf(VirtualDoc(name, cables, w)))) == Ok(Virtual(name, cables))
  {
    var d := VirtualDoc(name, cables, w);
    RouteKeys();
    AllKnown(d);
    FindField(d, 0);
    FindField(d, 1);
    TextRead(name, NAME_LEN, "WinHookAudio Virtual");
    BlockNode(Rows(CableDocs(cables)));
    CablesRead(cables);
    OverAll(cables, seq(CABLES, _ => DEFAULT_CABLE));
  }

  lemma StreamRead(s: Stream)
    requires ValidStream(s)
    ensures ReadStream(NodeOf(StreamDoc(s))) == Ok(s)
  {
    var d, z := StreamDoc(s), DEFAULT_STREAM;
    StreamKeys();
    WordsDiffer();
    AllKnown(d);
    FindField(d, 0);
    FindField(d, 1);
    FindField(d, 2);
    FindField(d, 3);
    FindField(d, 4);
    TextRead(s.ip, IP_LEN, z.ip);
    NatRead(s.port, z.port);
    ChoiceRead(CODEC_WORDS, s.codec, z.codec);
    QualityRead(s.quality, z.quality);
    NatRead(s.channels, z.channels);
  }

  lemma {:induction false} StreamsRead(streams: seq<Stream>)
    requires forall k :: 0 <= k < |streams| ==> ValidStream(streams[k])
    ensures ReadStreams(PartNodes(StreamDocs(streams))) == Ok(streams)
    decreases |streams|
  {
    if streams != [] {
      StreamRead(streams[0]);
      assert StreamDocs(streams)[1..] == StreamDocs(streams[1..]);
      StreamsRead(streams[1..]);
      assert [streams[0]] + streams[1..] == streams;
    }
  }

  lemma StreamListRead(streams: seq<Stream>)
    requires ValidStreams(streams)
    ensures ReadStreamList(Some(NodeOf(Rows(StreamDocs(streams))))) == Ok(streams)
  {
    BlockNode(Rows(StreamDocs(streams)));
    StreamsRead(streams);
    OverAll(streams, seq(STREAMS, _ => DEFAULT_STREAM));
  }

  lemma NetworkRead(tx: seq<Stream>, rx: seq<Stream>)
    requires ValidStreams(tx) && ValidStreams(rx)
    ensures ReadNetwork(Some(NodeOf(NetworkDoc(tx, rx)))) == Ok(Network(tx, rx))
  {
    var d := NetworkDoc(tx, rx);
    RouteKeys();
    AllKnown(d);
    FindField(d, 0);
    FindField(d, 1);
    StreamListRead(tx);
    StreamListRead(rx);
  }

  /** The settings of a table, in another: all but the number of Virtual Cables, which is not written, and the modes of
      devices past the last one listed. */
  function WithSettings(t: Table, from: Table): Table
    requires Validates(from)
  {
    Newer(t, from.version).(clock := from.clock, buffers := from.buffers, virtualCables := 8, virtualName := from.virtualName,
      render := Kept(from.render), capture := Kept(from.capture), cables := from.cables, tx := from.tx, rx := from.rx)
  }

  lemma SettingsRead(t: Table, w: Wording, t0: Table)
    requires Validates(t) && Fits(t)
    ensures ReadSettings(NodeOf(SettingsDoc(t, w)), t0) == Ok(WithSettings(t0, t))
  {
    var d := SettingsDoc(t, w);
    SettingsKeys();
    AllKnown(d);
    VersionRead(d, t.version, t0);
    FindField(d, 1);
    FindField(d, 2);
    FindField(d, 3);
    FindField(d, 4);
    FindField(d, 5);
    ClockRead(t.clock);
    BuffersRead(t.buffers, w);
    HardwareRead(t.render, t.capture, w);
    VirtualRead(t.virtualName, t.cables, w);
    NetworkRead(t.tx, t.rx);
  }

  // ---------------------------------------------------------------- the documents are printable

  lemma QuietNotes(n: nat)
    ensures forall k :: 0 <= k < n ==> GoodNote(Quiet(n)[k])
  {
    assert GoodNote(QUIET);
  }

  lemma GoodNumber(n: int)
    ensures GoodInline(NumberDoc(n))
  {
    NumberIsWord(n);
  }

  lemma SlotGood(s: Slot)
    ensures Shaped(SlotDoc(s)) && GoodBlock(SlotDoc(s))
  {
    SlotKeys();
    QuietNotes(6);
    WordsAreWords();
    GoodNumber(s.srcChannel);
    GoodNumber(s.streamId);
  }

  lemma SlotsGood(slots: seq<Slot>)
    requires slots != []
    ensures GoodBlock(Rows(SlotDocs(slots)))
  {
    forall k | 0 <= k < |slots| ensures Shaped(SlotDocs(slots)[k]) && GoodBlock(SlotDocs(slots)[k]) {
      SlotGood(slots[k]);
    }
  }

  lemma ClockGood(c: Clock)
    ensures GoodBlock(ClockDoc(c))
  {
    DeviceKeys();
    QuietNotes(3);
    GoodNumber(c.sampleRate);
    GoodNumber(c.bitDepth);
    GoodNumber(c.asioBuffer);
  }

  lemma BuffersGood(b: Buffers, w: Wording)
    requires GoodWording(w)
    ensures GoodBlock(BuffersDoc(b, w))
  {
    BufferKeys();
    QuietNotes(6);
    GoodNumber(b.hw);
    GoodNumber(b.virtual);
    GoodNumber(b.networkPcm);
    GoodNumber(b.networkVorbis);
    GoodNumber(b.jitterPcm);
    GoodNumber(b.jitterVorbis);
    forall k | 0 <= k < |b.bridge| ensures GoodScalar(NumberDocs(b.bridge)[k]) { GoodNumber(b.bridge[k]); }
  }

  lemma DevicesGood(render: Devices, capture: Devices, w: Wording)
    requires ValidDevices(render) && ValidDevices(capture) && GoodWording(w)
    ensures GoodBlock(DevicesDoc(render, capture, w))
  {
    DeviceKeys();
    QuietNotes(3);
    WordsAreWords();
  }

  lemma CableGood(c: Cable)
    ensures Shaped(CableDoc(c)) && GoodBlock(CableDoc(c))
  {
    RouteKeys();
    QuietNotes(2);
    WordsAreWords();
    GoodNumber(c.channels);
  }

  lemma VirtualGood(name: string, cables: seq<Cable>, w: Wording)
    requires cables != [] && GoodWording(w)
    ensures GoodBlock(VirtualDoc(name, cables, w))
  {
    RouteKeys();
    assert GoodNote(QUIET);
    forall k | 0 <= k < |cables| ensures Shaped(CableDocs(cables)[k]) && GoodBlock(CableDocs(cables)[k]) {
      CableGood(cables[k]);
    }
    assert GoodBlock(Rows(CableDocs(cables)));
  }

  lemma StreamGood(s: Stream)
    requires ValidStream(s)
    ensures Shaped(StreamDoc(s)) && GoodBlock(StreamDoc(s))
  {
    StreamKeys();
    QuietNotes(5);
    WordsAreWords();
    GoodNumber(s.port);
    QualityIsWord(s.quality);
    GoodNumber(s.channels);
  }

  lemma StreamsGood(streams: seq<Stream>)
    requires ValidStreams(streams)
    ensures GoodBlock(Rows(StreamDocs(streams)))
  {
    forall k | 0 <= k < |streams| ensures Shaped(StreamDocs(streams)[k]) && GoodBlock(StreamDocs(streams)[k]) {
      StreamGood(streams[k]);
    }
  }

  lemma NetworkGood(tx: seq<Stream>, rx: seq<Stream>)
    requires ValidStreams(tx) && ValidStreams(rx)
    ensures GoodBlock(NetworkDoc(tx, rx))
  {
    RouteKeys();
    QuietNotes(2);
    StreamsGood(tx);
    StreamsGood(rx);
  }

  lemma RouteValuesGood(t: Table)
    requires ValidSlots(t.inputs) && ValidSlots(t.outputs)
    ensures forall k :: 0 <= k < 3 ==> GoodInline(RouteValues(t)[k]) || GoodBlock(RouteValues(t)[k])
  {
    GoodNumber(t.version);
    SlotsGood(t.inputs);
    SlotsGood(t.outputs);
  }

  lemma SettingsValuesGood(t: Table, w: Wording)
    requires Validates(t) && GoodWording(w)
    ensures forall k :: 0 <= k < 5 ==> GoodBlock(SettingsValues(t, w)[k])
  {
    ClockGood(t.clock);
    BuffersGood(t.buffers, w);
    DevicesGood(t.render, t.capture, w);
    VirtualGood(t.virtualName, t.cables, w);
    NetworkGood(t.tx, t.rx);
  }

  lemma NotesGood(w: Wording)
    requires GoodWording(w)
    ensures forall k :: 0 <= k < 3 ==> GoodNote(RouteNotes(w)[k])
    ensures forall k :: 0 <= k < 5 ==> GoodNote(SettingsNotes(w, [])[k]) && GoodNote(SettingsNotes(w, w.between)[k])
    ensures GoodNote(Note(w.settings, ""))
  {
    assert GoodNote(QUIET);
  }

  lemma RoutesGood(t: Table, w: Wording)
    requires ValidSlots(t.inputs) && ValidSlots(t.outputs) && GoodWording(w)
    ensures GoodBlock(RoutesDoc(t, w))
  {
    RouteKeys();
    NotesGood(w);
    RouteValuesGood(t);
  }

  lemma SettingsGood(t: Table, w: Wording)
    requires Validates(t) && GoodWording(w)
    ensures GoodBlock(SettingsDoc(t, w))
  {
    SettingsKeys();
    NotesGood(w);
    GoodNumber(t.version);
    SettingsValuesGood(t, w);
  }

  lemma EverythingGood(t: Table, w: Wording)
    requires Validates(t) && GoodWording(w)
    ensures GoodBlock(EverythingDoc(t, w))
  {
    var d := EverythingDoc(t, w);
    SettingsKeys();
    NotesGood(w);
    RouteValuesGood(t);
    SettingsValuesGood(t, w);
    forall k | 0 <= k < |d.values| ensures GoodInline(d.values[k]) || GoodBlock(d.values[k]) {
      if k >= 3 { assert d.values[k] == SettingsValues(t, w)[k - 3]; }
    }
    forall k | 0 <= k < |d.notes| ensures GoodNote(d.notes[k]) {
      if k >= 3 { assert d.notes[k] == SettingsNotes(w, w.between)[k - 3]; }
    }
  }

  // ---------------------------------------------------------------- round trips

  /** The text of routes.yml, settings.yml and an Everything file. */
  function RoutesText(t: Table, w: Wording): string
    requires ValidSlots(t.inputs) && ValidSlots(t.outputs) && GoodWording(w)
  {
    RoutesGood(t, w);
    Render(Print(RoutesDoc(t, w), 0))
  }

  function SettingsText(t: Table, w: Wording): string
    requires Validates(t) && GoodWording(w)
  {
    SettingsGood(t, w);
    Render(Print(SettingsDoc(t, w), 0))
  }

  function EverythingText(t: Table, w: Wording): string
    requires Validates(t) && GoodWording(w)
  {
    EverythingGood(t, w);
    Render(Print(EverythingDoc(t, w), 0))
  }

  /** routes.yml gives back the version (if newer) and every slot, for any names, whatever the table read into held. */
  lemma RoutesRoundTrip(t: Table, w: Wording, t0: Table)
    requires ValidSlots(t.inputs) && ValidSlots(t.outputs) && Fits(t) && GoodWording(w)
    ensures DeserializeRoutes(RoutesText(t, w), t0) == Ok(WithRoutes(t0, t))
  {
    RoutesGood(t, w);
    ParseOfPrint(RoutesDoc(t, w));
    RoutesRead(t, w, t0);
  }

  /** settings.yml gives back everything it writes. */
  lemma SettingsRoundTrip(t: Table, w: Wording, t0: Table)
    requires Validates(t) && Fits(t) && GoodWording(w)
    ensures DeserializeSettings(SettingsText(t, w), t0) == Ok(WithSettings(t0, t))
  {
    SettingsGood(t, w);
    ParseOfPrint(SettingsDoc(t, w));
    SettingsRead(t, w, t0);
  }

  // ---------------------------------------------------------------- one file of any kind

  lemma {:induction false} NodesJoin(a: seq<Doc>, b: seq<Doc>)
    ensures PartNodes(a + b) == PartNodes(a) + PartNodes(b)
    decreases |a|
  {
    if a == [] {
      assert a + b == b;
    } else {
      assert (a + b)[1..] == a[1..] + b;
      NodesJoin(a[1..], b);
    }
  }

  predicate Belongs(key: string, routes: bool) {
    key == "version" || IsRoute(key) == routes
  }

  /** Keys that all belong to a part, then keys that do not. */
  lemma {:induction false} PartOf(keys: seq<string>, items: seq<Node>, n: nat, m: nat, routes: bool)
    requires |keys| == |items| && n <= m <= |keys|
    requires forall k :: 0 <= k < |keys| ==> (Belongs(keys[k], routes) <==> k < n || m <= k)
    ensures Part(keys, items, routes) == Map(keys[..n] + keys[m..], items[..n] + items[m..])
    decreases |keys|
  {
    if keys != [] {
      var n' := if n > 0 then n - 1 else 0;
      var m' := if m > 0 then m - 1 else 0;
      PartOf(keys[1..], items[1..], n', m', routes);
      Outside(keys, n, m);
      Outside(items, n, m);
    }
  }

  /** What lies outside n..m, seen from the first element. */
  lemma Outside<T>(s: seq<T>, n: nat, m: nat)
    requires s != [] && n <= m <= |s|
    ensures var rest := s[1..][..if n > 0 then n - 1 else 0] + s[1..][if m > 0 then m - 1 else 0..];
            s[..n] + s[m..] == if n > 0 || m == 0 then [s[0]] + rest else rest
  {
  }

  const ALL_KEYS := ROUTE_KEYS + SETTINGS_KEYS[1..]

  lemma KeyKinds()
    ensures |ALL_KEYS| == 8 && ALL_KEYS[0] == "version" && ALL_KEYS[1] == "inputs" && ALL_KEYS[2] == "outputs"
    ensures ALL_KEYS[3] == "clock" && forall k :: 3 <= k < 8 ==> !IsRoute(ALL_KEYS[k]) && ALL_KEYS[k] != "version"
    ensures !IsRoute("version")
  {
    SettingsKeys();
    assert forall k :: 3 <= k < 8 ==> ALL_KEYS[k] == SETTINGS_KEYS[k - 2];
    assert "version"[0] == 'v' && "inputs"[0] == 'i' && "outputs"[0] == 'o';
    assert SETTINGS_KEYS[1][0] == 'c' && SETTINGS_KEYS[2][0] == 'b' && SETTINGS_KEYS[3][0] == 'h' && SETTINGS_KEYS[4][1] == 'i';
    assert SETTINGS_KEYS[4][0] == 'v' && SETTINGS_KEYS[5][0] == 'n' && "version"[1] == 'e';
  }

  /** The parts of an Everything file are the two single files. */
  lemma PartsAreFiles(t: Table, w: Wording)
    requires Validates(t)
    ensures var root := NodeOf(EverythingDoc(t, w));
            && root.Map? && Part(root.keys, root.items, true) == NodeOf(RoutesDoc(t, w))
            && Part(root.keys, root.items, false) == NodeOf(SettingsDoc(t, w))
  {
    BlockNode(EverythingDoc(t, w));
    BlockNode(RoutesDoc(t, w));
    BlockNode(SettingsDoc(t, w));
    RoutesPart(RouteValues(t), SettingsValues(t, w));
    SettingsPart(RouteValues(t), SettingsValues(t, w));
  }

  lemma RoutesPart(a: seq<Doc>, b: seq<Doc>)
    requires |a| == 3 && |b| == 5
    ensures Part(ALL_KEYS, PartNodes(a + b), true) == Map(ROUTE_KEYS, PartNodes(a))
  {
    var items := PartNodes(a + b);
    NodesJoin(a, b);
    KeyKinds();
    PartOf(ALL_KEYS, items, 3, 8, true);
    assert ALL_KEYS[..3] + ALL_KEYS[8..] == ROUTE_KEYS;
    assert items[..3] + items[8..] == PartNodes(a);
  }

  lemma SettingsPart(a: seq<Doc>, b: seq<Doc>)
    requires |a| == 3 && |b| == 5
    ensures Part(ALL_KEYS, PartNodes(a + b), false) == Map(SETTINGS_KEYS, PartNodes([a[0]] + b))
  {
    var items := PartNodes(a + b);
    NodesJoin(a, b);
    KeyKinds();
    PartOf(ALL_KEYS, items, 1, 3, false);
    assert ALL_KEYS[..1] + ALL_KEYS[3..] == SETTINGS_KEYS;
    NodesJoin([a[0]], b);
    PartNode(a, 0);
    assert [a[0]][1..] == [] && PartNodes([a[0]]) == [NodeOf(a[0])];
    assert items[..1] + items[3..] == PartNodes([a[0]] + b);
  }

  /** Blank and comment lines hold no ink but that of the comment sign. */
  lemma {:induction false} InkAfter(line: string, rest: string)
    requires BlankOrComment(line) && FirstInk(rest) != Some('{')
    ensures FirstInk(line + "\n" + rest) != Some('{')
    decreases |line|
  {
    var text := line + "\n" + rest;
    if line == "" {
      assert text[1..] == rest;
    } else if line[0] == ' ' {
      assert text[1..] == line[1..] + "\n" + rest;
      InkAfter(line[1..], rest);
    } else {
      assert text[0] == '#';
    }
  }

  lemma {:induction false} InkOfComments(lines: seq<string>, ps: seq<Printed>)
    requires GoodComments(lines) && FirstInk(Render(ps)) != Some('{')
    ensures FirstInk(Render(Comments(lines) + ps)) != Some('{')
    decreases |lines|
  {
    if lines == [] {
      assert Comments(lines) + ps == ps;
    } else {
      InkOfComments(lines[1..], ps);
      RenderComment(lines, ps);
      InkAfter(lines[0], Render(Comments(lines[1..]) + ps));
    }
  }

  lemma RenderComment(lines: seq<string>, ps: seq<Printed>)
    requires lines != []
    ensures Render(Comments(lines) + ps) == lines[0] + "\n" + Render(Comments(lines[1..]) + ps)
  {
    var all := Comments(lines) + ps;
    assert all[0] == Comment(lines[0]);
    assert all[1..] == Comments(lines[1..]) + ps;
  }

  /** A printed document is not taken for the old format. */
  lemma NotOldFormat(d: Doc)
    requires d.Fields? && GoodBlock(d)
    ensures FirstInk(WithoutBom(Render(Print(d, 0)))) != Some('{')
  {
    NoByteOrderMark(d);
    InkOfFirst(d, Below(d, 0, 0) + PrintFields(d, 1, 0));
    assert GoodEntry(d, 0);
    FieldsPrinted(d, 0, 0);
    InkOfComments(d.notes[0].before, [KeyLine(d, 0, 0)] + (Below(d, 0, 0) + PrintFields(d, 1, 0)));
  }

  /** The first key of a document at the left margin is its first ink after the comments. */
  lemma InkOfFirst(d: Doc, rest: seq<Printed>)
    requires d.Fields? && GoodBlock(d)
    ensures FirstInk(Render([KeyLine(d, 0, 0)] + rest)) != Some('{')
  {
    var line := KeyLine(d, 0, 0);
    var ps := [line] + rest;
    KeyLineText(d, 0, 0);
    KeyTextIsLine(d, 0);
    assert Render(ps)[0] == LineOf(line)[0] == KeyText(d, 0)[0];
  }

  /** What comes back of a whole table. */
  function Restored(t0: Table, t: Table): Table
    requires Validates(t)
  {
    WithSettings(WithRoutes(t0, t), t)
  }

  /** An Everything file gives back the whole table, and what comes back is valid. */
  lemma EverythingRoundTrip(t: Table, w: Wording, t0: Table)
    requires Validates(t) && Fits(t) && GoodWording(w)
    ensures DeserializeConfigText(EverythingText(t, w), t0) == Ok(Restored(t0, t))
  {
    EverythingGood(t, w);
    ParseOfPrint(EverythingDoc(t, w));
    NotOldFormat(EverythingDoc(t, w));
    EverythingRead(t, w, t0);
  }

  lemma EverythingRead(t: Table, w: Wording, t0: Table)
    requires Validates(t) && Fits(t)
    ensures ReadConfig(NodeOf(EverythingDoc(t, w)), t0) == Ok(Restored(t0, t))
  {
    EverythingRecognised(t, w);
    PartsAreFiles(t, w);
    RoutesRead(t, w, t0);
    SettingsRead(t, w, WithRoutes(t0, t));
  }

  lemma EverythingRecognised(t: Table, w: Wording)
    requires Validates(t)
    ensures HasRoutes(NodeOf(EverythingDoc(t, w))) && HasSettings(NodeOf(EverythingDoc(t, w)))
  {
    SettingsKeys();
    KeyKinds();
    FindField(EverythingDoc(t, w), 1);
    FindField(EverythingDoc(t, w), 3);
  }

  /** The table itself comes back exactly when it has 8 Virtual Cables, no unlisted device has a mode of its own, and the
      table read into is not newer. */
  lemma RestoredExactly(t: Table, t0: Table)
    requires Validates(t)
    ensures Restored(t0, t) == t <==>
            t0.version <= t.version && t.virtualCables == 8 && UnlistedExclusive(t.render) && UnlistedExclusive(t.capture)
  {
    KeptExactly(t.render);
    KeptExactly(t.capture);
  }

  /** A table of one unused slot each way and default settings, but for the number of Virtual Cables and the mode of render
      device 5, which is not listed. */
  function Sample(virtualCables: nat, mode: nat): Table {
    var slots := [Slot(0, 0, 0, "", 0, 0)];
    var streams := seq(STREAMS, _ => DEFAULT_STREAM);
    Table(1, slots, slots, DEFAULT_CLOCK, DEFAULT_BUFFERS, virtualCables, "", NoDevices().(modes := NoDevices().modes[5 := mode]),
          NoDevices(), seq(CABLES, _ => DEFAULT_CABLE), streams, streams)
  }

  lemma SampleValid(virtualCables: nat, mode: nat)
    requires (virtualCables == 8 || virtualCables == 64) && mode < 3
    ensures Validates(Sample(virtualCables, mode)) && Fits(Sample(virtualCables, mode))
  {
  }

  /** A valid table the files do not restore: 64 Virtual Cables come back as 8. */
  lemma CablesNotRestored(w: Wording, t0: Table)
    requires GoodWording(w)
    ensures var t := Sample(64, 0);
            && Validates(t) && Fits(t)
            && var r := DeserializeConfigText(EverythingText(t, w), t0);
               r.Ok? && r.value != t && r.value.virtualCables == 8
  {
    SampleValid(64, 0);
    EverythingRoundTrip(Sample(64, 0), w, t0);
  }

  /** And one with 8: the shared mode of an unlisted device comes back as exclusive. */
  lemma ModeNotRestored(w: Wording, t0: Table)
    requires GoodWording(w)
    ensures var t := Sample(8, 1);
            && Validates(t) && Fits(t) && Kept(t.render) != t.render
            && var r := DeserializeConfigText(EverythingText(t, w), t0);
               r.Ok? && r.value != t && r.value.render == Kept(t.render) && r.value.render.modes[5] == 0
  {
    SampleValid(8, 1);
    var t := Sample(8, 1);
    EverythingRoundTrip(t, w, t0);
    ListedNone(t.render.ids);
    assert t.render.modes[5] == 1 && Kept(t.render).modes[5] == 0;
  }

  lemma {:induction false} ListedNone(ids: seq<string>)
    requires ids != [] && forall k :: 0 <= k < |ids| ==> ids[k] == ""
    ensures Listed(ids) == 1
    decreases |ids|
  {
    if |ids| > 1 { ListedNone(ids[..|ids| - 1]); }
  }

  /** A single file read as one of any kind: recognised, and its part taken if the table is valid with it. */
  lemma SingleFileRoundTrip(t: Table, w: Wording, t0: Table)
    requires Validates(t) && Fits(t) && GoodWording(w)
    ensures DeserializeConfigText(RoutesText(t, w), t0) == Validated(WithRoutes(t0, t))
    ensures DeserializeConfigText(SettingsText(t, w), t0) == Validated(WithSettings(t0, t))
  {
    RoutesFile(t, w, t0);
    SettingsFile(t, w, t0);
  }

  lemma RoutesFile(t: Table, w: Wording, t0: Table)
    requires Validates(t) && Fits(t) && GoodWording(w)
    ensures DeserializeConfigText(RoutesText(t, w), t0) == Validated(WithRoutes(t0, t))
  {
    RoutesGood(t, w);
    NotOldFormat(RoutesDoc(t, w));
    ParseOfPrint(RoutesDoc(t, w));
    Recognised(t, w);
    RoutesRead(t, w, t0);
  }

  lemma SettingsFile(t: Table, w: Wording, t0: Table)
    requires Validates(t) && Fits(t) && GoodWording(w)
    ensures DeserializeConfigText(SettingsText(t, w), t0) == Validated(WithSettings(t0, t))
  {
    SettingsGood(t, w);
    NotOldFormat(SettingsDoc(t, w));
    ParseOfPrint(SettingsDoc(t, w));
    Recognised(t, w);
    SettingsRead(t, w, t0);
  }

  lemma ForeignKeys()
    ensures forall k :: 1 <= k < 6 ==> SETTINGS_KEYS[k] !in ROUTE_KEYS
    ensures "inputs" !in SETTINGS_KEYS && "outputs" !in SETTINGS_KEYS
  {
    SettingsKeys();
    KeyKinds();
    forall k | 1 <= k < 6 ensures SETTINGS_KEYS[k] !in ROUTE_KEYS { assert SETTINGS_KEYS[k] == ALL_KEYS[k + 2]; }
    forall k | 0 <= k < 6 ensures !IsRoute(SETTINGS_KEYS[k]) { assert k >= 1 ==> SETTINGS_KEYS[k] == ALL_KEYS[k + 2]; }
  }

  lemma NoSettings(root: Node)
    requires root.Map? && root.keys == ROUTE_KEYS
    ensures !HasSettings(root)
  {
    ForeignKeys();
    forall k | 1 <= k < 6 ensures Find(root, SETTINGS_KEYS[k]) == None { LookupNone(ROUTE_KEYS, root.items, SETTINGS_KEYS[k]); }
    assert Find(root, SETTINGS_KEYS[1]) == None && Find(root, SETTINGS_KEYS[2]) == None && Find(root, SETTINGS_KEYS[3]) == None;
    assert Find(root, SETTINGS_KEYS[4]) == None && Find(root, SETTINGS_KEYS[5]) == None;
  }

  lemma NoRoutes(root: Node)
    requires root.Map? && root.keys == SETTINGS_KEYS
    ensures !HasRoutes(root)
  {
    ForeignKeys();
    LookupNone(SETTINGS_KEYS, root.items, "inputs");
    LookupNone(SETTINGS_KEYS, root.items, "outputs");
  }

  lemma Recognised(t: Table, w: Wording)
    requires Validates(t)
    ensures HasRoutes(NodeOf(RoutesDoc(t, w))) && !HasSettings(NodeOf(RoutesDoc(t, w)))
    ensures !HasRoutes(NodeOf(SettingsDoc(t, w))) && HasSettings(NodeOf(SettingsDoc(t, w)))
  {
    RouteKeys();
    SettingsKeys();
    FindField(RoutesDoc(t, w), 1);
    FindField(SettingsDoc(t, w), 1);
    BlockNode(RoutesDoc(t, w));
    BlockNode(SettingsDoc(t, w));
    NoSettings(NodeOf(RoutesDoc(t, w)));
    NoRoutes(NodeOf(SettingsDoc(t, w)));
  }

  lemma {:induction false} LookupNone(keys: seq<string>, items: seq<Node>, key: string)
    requires key !in keys
    ensures Lookup(keys, items, key) == None
    decreases |keys|
  {
    if keys != [] && items != [] { LookupNone(keys[1..], items[1..], key); }
  }
}
