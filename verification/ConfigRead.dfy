/** The typed readers of the config files: a parsed document into the Slot Table. On values: what a failed read leaves half
    written is not modelled. */
module ConfigRead {
  import opened YamlText
  import opened YamlInline
  import YamlLines
  import opened YamlParser
  import opened ConfigTable

  // ---------------------------------------------------------------- keys

  const ROUTE_KEYS := ["version", "inputs", "outputs"]
  const SETTINGS_KEYS := ["version", "clock", "buffers", "hwDevices", "virtualCables", "network"]
  const SLOT_KEYS := ["name", "type", "srcChannel", "streamId", "enabled", "loopback"]
  const CLOCK_KEYS := ["sampleRate", "bitDepth", "asioBuffer"]
  const BUFFER_KEYS := ["hw", "virtual", "bridge", "networkPcm", "networkVorbis", "jitterPcm", "jitterVorbis"]
  const DEVICE_KEYS := ["outputs", "outputModes", "inputs", "inputModes"]
  const CABLES_KEYS := ["name", "cables"]
  const CABLE_KEYS := ["channels", "format"]
  const NETWORK_KEYS := ["tx", "rx"]
  const STREAM_KEYS := ["ip", "port", "codec", "quality", "channels"]

  /** YamlNode::Find on the keys and items of a map. */
  function Lookup(keys: seq<string>, items: seq<Node>, key: string): Option<Node> {
    if keys == [] || items == [] then None
    else if keys[0] == key then Some(items[0])
    else Lookup(keys[1..], items[1..], key)
  }

  function Find(n: Node, key: string): Option<Node> {
    if n.Map? then Lookup(n.keys, n.items, key) else None
  }

  function CheckMap(n: Node, allowed: seq<string>): Result<bool> {
    if !n.Map? then Err(NoMap)
    else if exists k :: 0 <= k < |n.keys| && n.keys[k] !in allowed then Err(UnknownKey)
    else Ok(true)
  }

  function CheckList(n: Node, least: nat, most: nat): (r: Result<seq<Node>>)
    ensures r.Ok? ==> n.Seq? && r.value == n.items && least <= |r.value| <= most
  {
    if !n.Seq? then Err(NoList)
    else if |n.items| < least || |n.items| > most then Err(BadCount)
    else Ok(n.items)
  }

  // ---------------------------------------------------------------- scalars

  function ReadLong(n: Node, lo: int, hi: int): (r: Result<int>)
    ensures r.Ok? ==> lo <= r.value <= hi
  {
    if !n.Scalar? || n.text == "" then Err(NoNumber)
    else
      var c := CText(n.text);
      var v := Strtoll(c);
      if v.next != |c| then Err(NoNumber) else if v.value < lo || v.value > hi then Err(OutOfRange) else Ok(v.value)
  }

  /** Each reader keeps the default for a key left out. */
  function ReadU32(n: Option<Node>, default: nat): Result<nat> {
    if n.None? then Ok(default)
    else
      var v :- ReadLong(n.value, 0, 0xFFFF_FFFF);
      Ok(v as nat)
  }

  function ReadI32(n: Option<Node>, default: int): Result<int> {
    if n.None? then Ok(default) else ReadLong(n.value, -0x8000_0000, 0x7FFF_FFFF)
  }

  function ReadBool(n: Option<Node>, default: nat): Result<nat> {
    if n.None? then Ok(default)
    else if n.value == Scalar("true", false) then Ok(1)
    else if n.value == Scalar("false", false) then Ok(0)
    else Err(NoBool)
  }

  function ReadFloat(n: Option<Node>, default: int): Result<int> {
    if n.None? then Ok(default)
    else if !n.value.Scalar? || n.value.text == "" then Err(NoNumber)
    else
      var c := CText(n.value.text);
      var v := Strtof(c);
      if v.next != |c| then Err(NoNumber) else Ok(v.value)
  }

  /** A string into a char array of that size. */
  function ReadText(n: Option<Node>, size: nat, default: string): (r: Result<string>)
    ensures r.Ok? && n.Some? ==> TextFits(r.value, size)
  {
    if n.None? then Ok(default)
    else if !n.value.Scalar? then Err(NoText)
    else if |n.value.text| >= size then Err(TooLong)
    else
      NoNul(n.value.text);
      Ok(CText(n.value.text))
  }

  lemma {:induction false} NoNul(s: string)
    ensures forall k :: 0 <= k < |CText(s)| ==> CText(s)[k] != '\0'
    decreases |s|
  {
    if s != "" { NoNul(s[1..]); }
  }

  function ReadWord(n: Option<Node>, words: seq<string>, default: nat): Result<nat> {
    if n.None? then Ok(default)
    else if !n.value.Scalar? then Err(NoWord)
    else
      match NumberOf(words, n.value.text)
      case None => Err(NoWord)
      case Some(v) => Ok(v)
  }

  /** TakeVersion(): never back. */
  function TakeVersion(root: Node, t: Table): Result<Table> {
    var v :- ReadU32(Find(root, "version"), 0);
    Ok(if v > t.version then t.(version := v) else t)
  }

  // ---------------------------------------------------------------- routes

  function ReadSlot(n: Node): Result<Slot> {
    var _ :- CheckMap(n, SLOT_KEYS);
    if Find(n, "type").None? then Err(MissingKey)
    else
      var kind :- ReadWord(Find(n, "type"), SLOT_WORDS, 0);
      var name :- ReadText(Find(n, "name"), NAME_LEN, "- empty -");
      var srcChannel :- ReadI32(Find(n, "srcChannel"), 0);
      var streamId :- ReadI32(Find(n, "streamId"), 0);
      var enabled :- ReadBool(Find(n, "enabled"), 1);
      var loopback :- ReadBool(Find(n, "loopback"), 0);
      Ok(Slot(kind, srcChannel, streamId, name, enabled, loopback))
  }

  function ReadSlots(nodes: seq<Node>): Result<seq<Slot>> {
    if nodes == [] then Ok([])
    else
      var first :- ReadSlot(nodes[0]);
      var rest :- ReadSlots(nodes[1..]);
      Ok([first] + rest)
  }

  function ReadSlotList(root: Node, key: string): Result<seq<Slot>> {
    if Find(root, key).None? then Err(MissingKey)
    else
      var nodes :- CheckList(Find(root, key).value, 1, MAX_SLOTS);
      ReadSlots(nodes)
  }

  function ReadRoutes(root: Node, t0: Table): Result<Table> {
    var _ :- CheckMap(root, ROUTE_KEYS);
    var t :- TakeVersion(root, t0);
    var inputs :- ReadSlotList(root, "inputs");
    var outputs :- ReadSlotList(root, "outputs");
    Ok(t.(inputs := inputs, outputs := outputs))
  }

  // ---------------------------------------------------------------- settings

  function ReadClock(n: Option<Node>): Result<Clock> {
    if n.None? then Ok(DEFAULT_CLOCK)
    else
      var _ :- CheckMap(n.value, CLOCK_KEYS);
      var sampleRate :- ReadU32(Find(n.value, "sampleRate"), DEFAULT_CLOCK.sampleRate);
      var bitDepth :- ReadU32(Find(n.value, "bitDepth"), DEFAULT_CLOCK.bitDepth);
      var asioBuffer :- ReadU32(Find(n.value, "asioBuffer"), DEFAULT_CLOCK.asioBuffer);
      Ok(Clock(sampleRate, bitDepth, asioBuffer))
  }

  function ReadNumbers(nodes: seq<Node>): (r: Result<seq<nat>>)
    ensures r.Ok? ==> |r.value| == |nodes|
  {
    if nodes == [] then Ok([])
    else
      var first :- ReadU32(Some(nodes[0]), 0);
      var rest :- ReadNumbers(nodes[1..]);
      Ok([first] + rest)
  }

  function ReadBridge(n: Option<Node>): Result<seq<nat>> {
    if n.None? then Ok(DEFAULT_BUFFERS.bridge)
    else
      var nodes :- CheckList(n.value, BRIDGES, BRIDGES);
      ReadNumbers(nodes)
  }

  function ReadBuffers(n: Option<Node>): Result<Buffers> {
    if n.None? then Ok(DEFAULT_BUFFERS)
    else
      var d := DEFAULT_BUFFERS;
      var _ :- CheckMap(n.value, BUFFER_KEYS);
      var hw :- ReadU32(Find(n.value, "hw"), d.hw);
      var virtual :- ReadU32(Find(n.value, "virtual"), d.virtual);
      var networkPcm :- ReadU32(Find(n.value, "networkPcm"), d.networkPcm);
      var networkVorbis :- ReadU32(Find(n.value, "networkVorbis"), d.networkVorbis);
      var jitterPcm :- ReadU32(Find(n.value, "jitterPcm"), d.jitterPcm);
      var jitterVorbis :- ReadU32(Find(n.value, "jitterVorbis"), d.jitterVorbis);
      var bridge :- ReadBridge(Find(n.value, "bridge"));
      Ok(Buffers(hw, virtual, bridge, networkPcm, networkVorbis, jitterPcm, jitterVorbis))
  }

  /** `rest`, with its first places taken by `read`. */
  function Over<T>(read: seq<T>, rest: seq<T>): (s: seq<T>)
    ensures |read| <= |rest| ==> |s| == |rest|
  {
    if |read| <= |rest| then read + rest[|read|..] else read
  }

  function NoDevices(): Devices {
    Devices(seq(HW_DEVICES, _ => ""), seq(HW_DEVICES, _ => 0))
  }

  function ReadIds(nodes: seq<Node>): (r: Result<seq<string>>)
    ensures r.Ok? ==> |r.value| == |nodes|
  {
    if nodes == [] then Ok([])
    else
      var first :- ReadText(Some(nodes[0]), ID_LEN, "");
      var rest :- ReadIds(nodes[1..]);
      Ok([first] + rest)
  }

  function ReadModes(nodes: seq<Node>): (r: Result<seq<nat>>)
    ensures r.Ok? ==> |r.value| == |nodes|
  {
    if nodes == [] then Ok([])
    else
      var first :- ReadWord(Some(nodes[0]), MODE_WORDS, 0);
      var rest :- ReadModes(nodes[1..]);
      Ok([first] + rest)
  }

  function ReadIdList(n: Option<Node>): Result<seq<string>> {
    if n.None? then Ok([])
    else
      var nodes :- CheckList(n.value, 0, HW_DEVICES);
      ReadIds(nodes)
  }

  function ReadModeList(n: Option<Node>): Result<seq<nat>> {
    if n.None? then Ok([])
    else
      var nodes :- CheckList(n.value, 0, HW_DEVICES);
      ReadModes(nodes)
  }

  function ReadDevices(ids: Option<Node>, modes: Option<Node>): Result<Devices> {
    var i :- ReadIdList(ids);
    var m :- ReadModeList(modes);
    Ok(Devices(Over(i, NoDevices().ids), Over(m, NoDevices().modes)))
  }

  datatype Hardware = Hardware(render: Devices, capture: Devices)

  function ReadHardware(n: Option<Node>): Result<Hardware> {
    if n.None? then Ok(Hardware(NoDevices(), NoDevices()))
    else
      var _ :- CheckMap(n.value, DEVICE_KEYS);
      var render :- ReadDevices(Find(n.value, "outputs"), Find(n.value, "outputModes"));
      var capture :- ReadDevices(Find(n.value, "inputs"), Find(n.value, "inputModes"));
      Ok(Hardware(render, capture))
  }

  function ReadCable(n: Node): Result<Cable> {
    var _ :- CheckMap(n, CABLE_KEYS);
    var channels :- ReadU32(Find(n, "channels"), DEFAULT_CABLE.channels);
    var format :- ReadWord(Find(n, "format"), FORMAT_WORDS, DEFAULT_CABLE.format);
    if channels > 255 then Err(OutOfRange) else Ok(Cable(channels, format))
  }

  function ReadCables(nodes: seq<Node>): (r: Result<seq<Cable>>)
    ensures r.Ok? ==> |r.value| == |nodes|
  {
    if nodes == [] then Ok([])
    else
      var first :- ReadCable(nodes[0]);
      var rest :- ReadCables(nodes[1..]);
      Ok([first] + rest)
  }

  datatype Virtual = Virtual(name: string, cables: seq<Cable>)

  function ReadCableList(n: Option<Node>): Result<seq<Cable>> {
    var none := seq(CABLES, _ => DEFAULT_CABLE);
    if n.None? then Ok(none)
    else
      var nodes :- CheckList(n.value, 0, CABLES);
      var cables :- ReadCables(nodes);
      Ok(Over(cables, none))
  }

  function ReadVirtual(n: Option<Node>): Result<Virtual> {
    var defaultName := "WinHookAudio Virtual";
    if n.None? then Ok(Virtual(defaultName, seq(CABLES, _ => DEFAULT_CABLE)))
    else
      var _ :- CheckMap(n.value, CABLES_KEYS);
      var name :- ReadText(Find(n.value, "name"), NAME_LEN, defaultName);
      var cables :- ReadCableList(Find(n.value, "cables"));
      Ok(Virtual(name, cables))
  }

  function ReadStream(n: Node): Result<Stream> {
    var d := DEFAULT_STREAM;
    var _ :- CheckMap(n, STREAM_KEYS);
    var ip :- ReadText(Find(n, "ip"), IP_LEN, d.ip);
    var port :- ReadU32(Find(n, "port"), d.port);
    var codec :- ReadWord(Find(n, "codec"), CODEC_WORDS, d.codec);
    var quality :- ReadFloat(Find(n, "quality"), d.quality);
    var channels :- ReadU32(Find(n, "channels"), d.channels);
    if port > 65535 then Err(OutOfRange) else Ok(Stream(ip, port, codec, quality, channels))
  }

  function ReadStreams(nodes: seq<Node>): (r: Result<seq<Stream>>)
    ensures r.Ok? ==> |r.value| == |nodes|
  {
    if nodes == [] then Ok([])
    else
      var first :- ReadStream(nodes[0]);
      var rest :- ReadStreams(nodes[1..]);
      Ok([first] + rest)
  }

  function ReadStreamList(n: Option<Node>): Result<seq<Stream>> {
    var none := seq(STREAMS, _ => DEFAULT_STREAM);
    if n.None? then Ok(none)
    else
      var nodes :- CheckList(n.value, 0, STREAMS);
      var streams :- ReadStreams(nodes);
      Ok(Over(streams, none))
  }

  datatype Network = Network(tx: seq<Stream>, rx: seq<Stream>)

  function ReadNetwork(n: Option<Node>): Result<Network> {
    if n.None? then
      var none := seq(STREAMS, _ => DEFAULT_STREAM);
      Ok(Network(none, none))
    else
      var _ :- CheckMap(n.value, NETWORK_KEYS);
      var tx :- ReadStreamList(Find(n.value, "tx"));
      var rx :- ReadStreamList(Find(n.value, "rx"));
      Ok(Network(tx, rx))
  }

  function ReadSettings(root: Node, t0: Table): Result<Table> {
    var _ :- CheckMap(root, SETTINGS_KEYS);
    var t :- TakeVersion(root, t0);
    var clock :- ReadClock(Find(root, "clock"));
    var buffers :- ReadBuffers(Find(root, "buffers"));
    var hardware :- ReadHardware(Find(root, "hwDevices"));
    var virtual :- ReadVirtual(Find(root, "virtualCables"));
    var network :- ReadNetwork(Find(root, "network"));
    Ok(t.(clock := clock, buffers := buffers, virtualCables := 8, virtualName := virtual.name, render := hardware.render,
          capture := hardware.capture, cables := virtual.cables, tx := network.tx, rx := network.rx))
  }

  // ---------------------------------------------------------------- one file of any kind

  predicate IsRoute(key: string) {
    key == "inputs" || key == "outputs"
  }

  /** The keys of one part of an Everything file (the version belongs to both), and their items. */
  function Part(keys: seq<string>, items: seq<Node>, routes: bool): Node
    decreases |keys|
  {
    if keys == [] || items == [] then Map([], [])
    else
      var rest := Part(keys[1..], items[1..], routes);
      if rest.Map? && (keys[0] == "version" || IsRoute(keys[0]) == routes) then Map([keys[0]] + rest.keys, [items[0]] + rest.items)
      else rest
  }

  function HasRoutes(root: Node): bool {
    Find(root, "inputs").Some? || Find(root, "outputs").Some?
  }

  function HasSettings(root: Node): bool {
    Find(root, "clock").Some? || Find(root, "buffers").Some? || Find(root, "hwDevices").Some?
    || Find(root, "virtualCables").Some? || Find(root, "network").Some?
  }

  predicate IsWhite(c: char) {
    c == ' ' || c == '\t' || c == '\r' || c == '\n'
  }

  /** The first character that is not white space. */
  function FirstInk(text: string): Option<char> {
    if text == "" then None else if IsWhite(text[0]) then FirstInk(text[1..]) else Some(text[0])
  }

  function Validated(t: Table): Result<Table> {
    if Validates(t) then Ok(t) else Err(Invalid)
  }

  /** A parsed file of any kind into the table. */
  function ReadConfig(root: Node, t: Table): Result<Table> {
    if !root.Map? || (!HasRoutes(root) && !HasSettings(root)) then Err(NotConfig)
    else if HasRoutes(root) && HasSettings(root) then
      var withRoutes :- ReadRoutes(Part(root.keys, root.items, true), t);
      var both :- ReadSettings(Part(root.keys, root.items, false), withRoutes);
      Validated(both)
    else
      var read :- if HasRoutes(root) then ReadRoutes(root, t) else ReadSettings(root, t);
      Validated(read)
  }

  /** DeserializeRoutes(), DeserializeSettings() and DeserializeConfigText(); the old JSON format is not part of this
      model. */
  function DeserializeRoutes(text: string, t: Table): Result<Table> {
    var root :- ParseYaml(text);
    ReadRoutes(root, t)
  }

  function DeserializeSettings(text: string, t: Table): Result<Table> {
    var root :- ParseYaml(text);
    ReadSettings(root, t)
  }

  function DeserializeConfigText(text: string, t: Table): Result<Table> {
    if FirstInk(YamlLines.WithoutBom(text)) == Some('{') then Err(OldFormat)
    else
      var root :- ParseYaml(text);
      ReadConfig(root, t)
  }
}
