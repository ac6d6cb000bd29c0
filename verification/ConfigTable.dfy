/** The Slot Table as the config files see it, and the words and numbers they use. */
module ConfigTable {
  import opened YamlInline

  const MAX_SLOTS: nat := 512
  const NAME_LEN: nat := 32
  const ID_LEN: nat := 64
  const IP_LEN: nat := 16
  const HW_DEVICES: nat := 128
  const CABLES: nat := 16
  const STREAMS: nat := 8
  const BRIDGES: nat := 4

  // ---------------------------------------------------------------- the table

  /** A zero-padded char array is its text. `quality` is in millionths. */
  datatype Slot = Slot(kind: nat, srcChannel: int, streamId: int, name: string, enabled: nat, loopback: nat)
  datatype Cable = Cable(channels: nat, format: nat)
  datatype Stream = Stream(ip: string, port: nat, codec: nat, quality: int, channels: nat)
  datatype Clock = Clock(sampleRate: nat, bitDepth: nat, asioBuffer: nat)
  datatype Buffers = Buffers(hw: nat, virtual: nat, bridge: seq<nat>, networkPcm: nat, networkVorbis: nat, jitterPcm: nat,
                             jitterVorbis: nat)

  /** The devices of one direction: ids[0] is the one in GENERAL; "" is not in the list. */
  datatype Devices = Devices(ids: seq<string>, modes: seq<nat>)

  /** The slots in use of each direction, GENERAL (clock, buffers, Virtual Cables), devices, cables and streams. */
  datatype Table = Table(version: nat, inputs: seq<Slot>, outputs: seq<Slot>, clock: Clock, buffers: Buffers,
                         virtualCables: nat, virtualName: string, render: Devices, capture: Devices, cables: seq<Cable>,
                         tx: seq<Stream>, rx: seq<Stream>)

  const DEFAULT_CLOCK := Clock(48000, 32, 128)
  const DEFAULT_BUFFERS := Buffers(64, 256, [128, 128, 128, 128], 512, 1024, 20, 50)
  const DEFAULT_CABLE := Cable(2, 0)
  const DEFAULT_STREAM := Stream("", 6980, 0, 400000, 2)

  /** Does a text fit a char array of that size, terminator included? */
  predicate TextFits(s: string, size: nat) {
    |s| < size && forall k :: 0 <= k < |s| ==> s[k] != '\0'
  }

  predicate U32(n: nat) {
    n < 0x1_0000_0000
  }

  predicate I32(n: int) {
    -0x8000_0000 <= n < 0x8000_0000
  }

  // ---------------------------------------------------------------- ValidateSlots

  predicate ValidSlot(s: Slot) {
    && s.kind <= 7 && (s.kind == 3 ==> 0 <= s.streamId < STREAMS) && s.enabled <= 1 && s.loopback <= 1
    && (s.loopback != 0 ==> s.kind == 2) && TextFits(s.name, NAME_LEN)
  }

  predicate ValidSlots(slots: seq<Slot>) {
    1 <= |slots| <= MAX_SLOTS && forall k :: 0 <= k < |slots| ==> ValidSlot(slots[k])
  }

  predicate ValidClock(c: Clock) {
    && c.sampleRate in {44100, 48000, 88200, 96000, 176400, 192000} && c.bitDepth == 32
    && c.asioBuffer in {64, 128, 256, 512, 1024}
  }

  predicate ValidDevices(d: Devices) {
    && |d.ids| == HW_DEVICES && |d.modes| == HW_DEVICES
    && (forall k :: 0 <= k < |d.ids| ==> TextFits(d.ids[k], ID_LEN)) && forall k :: 0 <= k < |d.modes| ==> d.modes[k] < 3
  }

  predicate ValidCable(c: Cable) {
    (c.channels == 2 || c.channels == 4 || c.channels == 6 || c.channels == 8) && c.format <= 4
  }

  predicate ValidCables(cables: seq<Cable>) {
    |cables| == CABLES && forall k :: 0 <= k < |cables| ==> ValidCable(cables[k])
  }

  predicate ValidStream(s: Stream) {
    && s.codec <= 2 && 1 <= s.channels <= (if s.codec == 2 then 128 else 32) && 100000 <= s.quality <= 1000000
    && 1 <= s.port <= 65535 && TextFits(s.ip, IP_LEN)
  }

  predicate ValidStreams(streams: seq<Stream>) {
    |streams| == STREAMS && forall k :: 0 <= k < |streams| ==> ValidStream(streams[k])
  }

  predicate ValidBuffers(b: Buffers) {
    && |b.bridge| == BRIDGES
    && forall k :: 0 <= k < |b.bridge| ==> b.bridge[k] in {64, 128, 256, 512, 1024}
  }

  /** ValidateSlots(), and texts and counts as the arrays of the table hold them. */
  predicate Validates(t: Table) {
    && ValidSlots(t.inputs) && ValidSlots(t.outputs) && ValidClock(t.clock)
    && (t.virtualCables == 8 || t.virtualCables == 64) && TextFits(t.virtualName, NAME_LEN)
    && ValidDevices(t.render) && ValidDevices(t.capture) && ValidCables(t.cables) && ValidBuffers(t.buffers)
    && ValidStreams(t.tx) && ValidStreams(t.rx)
  }

  /** The fields of 32 bits that ValidateSlots does not look at. */
  predicate Fits(t: Table) {
    && U32(t.version) && (forall k :: 0 <= k < |t.inputs| ==> SlotFits(t.inputs[k]))
    && (forall k :: 0 <= k < |t.outputs| ==> SlotFits(t.outputs[k])) && BuffersFit(t.buffers)
  }

  predicate SlotFits(s: Slot) {
    I32(s.srcChannel) && I32(s.streamId)
  }

  predicate BuffersFit(b: Buffers) {
    U32(b.hw) && U32(b.virtual) && U32(b.networkPcm) && U32(b.networkVorbis) && U32(b.jitterPcm) && U32(b.jitterVorbis)
  }

  // ---------------------------------------------------------------- words

  const SLOT_WORDS := ["none", "hw", "virtual", "network", "bridge1", "bridge2", "bridge3", "bridge4"]
  const FORMAT_WORDS := ["float32", "pcm16", "pcm24", "pcm32", "pcm24in32"]
  const MODE_WORDS := ["exclusive", "shared", "auto"]
  const CODEC_WORDS := ["pcm-f32", "pcm-i16", "vorbis"]
  const BOOL_WORDS := ["false", "true"]

  /** The word for a number; the first one for a number out of range. */
  function WordOf(words: seq<string>, n: nat): string
    requires words != []
  {
    if n < |words| then words[n] else words[0]
  }

  /** The number of a word. */
  function NumberOf(words: seq<string>, w: string): Option<nat> {
    NumberFrom(words, w, 0)
  }

  function NumberFrom(words: seq<string>, w: string, n: nat): (r: Option<nat>)
    ensures r.Some? ==> n <= r.value < |words|
    decreases |words| - n
  {
    if n >= |words| then None else if words[n] == w then Some(n) else NumberFrom(words, w, n + 1)
  }

  predicate DifferentWords(words: seq<string>) {
    forall i, j :: 0 <= i < j < |words| ==> words[i] != words[j]
  }

  lemma {:induction false} NumberUndoesWord(words: seq<string>, n: nat, from: nat)
    requires DifferentWords(words) && from <= n < |words|
    ensures NumberFrom(words, WordOf(words, n), from) == Some(n)
    decreases n - from
  {
    if from < n { NumberUndoesWord(words, n, from + 1); }
  }

  lemma WordsDiffer()
    ensures DifferentWords(SLOT_WORDS) && DifferentWords(FORMAT_WORDS) && DifferentWords(MODE_WORDS)
    ensures DifferentWords(CODEC_WORDS) && DifferentWords(BOOL_WORDS)
  {
    assert forall i, j :: 0 <= i < j < |SLOT_WORDS| && |SLOT_WORDS[i]| == |SLOT_WORDS[j]| ==> i >= 2 && |SLOT_WORDS[i]| == 7;
    assert SLOT_WORDS[2][0] == 'v' && SLOT_WORDS[3][0] == 'n';
    assert forall i :: 4 <= i < 8 ==> SLOT_WORDS[i][0] == 'b' && SLOT_WORDS[i][6] as int == '1' as int + (i - 4);
    assert FORMAT_WORDS[1][3] == '1' && FORMAT_WORDS[2][3] == '2' && FORMAT_WORDS[3][3] == '3';
    assert CODEC_WORDS[0][4] == 'f' && CODEC_WORDS[1][4] == 'i';
  }

  // ---------------------------------------------------------------- numbers

  function Digit(d: nat): char
    requires d < 10
  {
    ('0' as int + d) as char
  }

  /** std::to_string of an unsigned number. */
  function NatText(n: nat): (s: string)
    ensures s != ""
    decreases n
  {
    if n < 10 then [Digit(n)] else NatText(n / 10) + [Digit(n % 10)]
  }

  function IntText(n: int): string {
    if n < 0 then "-" + NatText(-n) else NatText(n)
  }

  predicate IsDigit(c: char) {
    '0' <= c <= '9'
  }

  predicate IsSpace(c: char) {
    c == ' ' || (9 <= c as int <= 13)
  }

  /** The text up to the first NUL, as c_str() hands it to strtoll. */
  function CText(s: string): (c: string)
    ensures |c| <= |s|
  {
    if s == "" || s[0] == '\0' then "" else [s[0]] + CText(s[1..])
  }

  function SkipSpace(s: string, p: nat): (q: nat)
    requires p <= |s|
    ensures p <= q <= |s|
    decreases |s| - p
  {
    if p < |s| && IsSpace(s[p]) then SkipSpace(s, p + 1) else p
  }

  /** A number read, and the position after it. */
  datatype Num = Num(value: int, next: nat)

  function DigitsFrom(s: string, p: nat, acc: nat): (r: Num)
    requires p <= |s|
    ensures p <= r.next <= |s| && r.value >= 0
    decreases |s| - p
  {
    if p < |s| && IsDigit(s[p]) then DigitsFrom(s, p + 1, 10 * acc + (s[p] as int - '0' as int)) else Num(acc, p)
  }

  /** strtoll(), without its 64-bit limits: the value, and where it stopped (0 if there is no number). */
  function Strtoll(s: string): (r: Num)
    ensures r.next <= |s|
  {
    var p := SkipSpace(s, 0);
    var sign := if p < |s| && (s[p] == '-' || s[p] == '+') then 1 else 0;
    var n := DigitsFrom(s, p + sign, 0);
    if n.next == p + sign then Num(0, 0)
    else Num(if sign == 1 && s[p] == '-' then -n.value else n.value, n.next)
  }

  /** The value of digits, last one first. */
  function Fold(s: string): nat
    requires forall k :: 0 <= k < |s| ==> IsDigit(s[k])
    decreases |s|
  {
    if s == "" then 0
    else
      assert IsDigit(s[|s| - 1]);
      10 * Fold(s[..|s| - 1]) + (s[|s| - 1] as int - '0' as int)
  }

  lemma {:induction false} NatTextIs(n: nat)
    ensures forall k :: 0 <= k < |NatText(n)| ==> IsDigit(NatText(n)[k])
    ensures Fold(NatText(n)) == n
    decreases n
  {
    if n >= 10 {
      NatTextIs(n / 10);
      var s := NatText(n);
      assert s[..|s| - 1] == NatText(n / 10);
    } else {
      assert NatText(n)[..0] == "";
    }
  }

  lemma {:induction false} DigitsFold(s: string, from: nat, p: nat)
    requires from <= p <= |s| && forall k :: from <= k < |s| ==> IsDigit(s[k])
    ensures DigitsFrom(s, p, Fold(s[from..p])) == Num(Fold(s[from..]), |s|)
    decreases |s| - p
  {
    if p < |s| {
      assert s[from..p + 1][..p - from] == s[from..p];
      DigitsFold(s, from, p + 1);
    } else {
      assert s[from..p] == s[from..];
    }
  }

  /** Reading undoes printing, for every integer. */
  lemma StrtollUndoesText(n: int)
    ensures Strtoll(IntText(n)) == Num(n, |IntText(n)|)
  {
    var s := IntText(n);
    var sign: nat := if n < 0 then 1 else 0;
    var digits := NatText(if n < 0 then -n else n);
    NatTextIs(if n < 0 then -n else n);
    assert s[sign..] == digits;
    assert forall k :: sign <= k < |s| ==> s[k] == digits[k - sign];
    assert IsDigit(digits[0]);
    assert s[0] == '-' || s[0] == digits[0];
    DigitsFold(s, sign, sign);
    assert s[sign..sign] == "";
    assert SkipSpace(s, 0) == 0;
  }

  // ---------------------------------------------------------------- decimals

  /** Digits without the zeros at the end. */
  function StripZeros(s: string): string
    decreases |s|
  {
    if s != "" && s[|s| - 1] == '0' then StripZeros(s[..|s| - 1]) else s
  }

  /** %.6g of a number of millionths from 0.1 to 1. */
  function QualityText(m: int): string
    requires 100000 <= m <= 1000000
  {
    if m == 1000000 then "1" else "0." + StripZeros(NatText(m))
  }

  /** The millionths of the digits of a fraction, and how many there are. */
  function Fraction(s: string, weight: nat): (r: Num)
    ensures r.next <= |s|
  {
    if s != "" && IsDigit(s[0]) then
      var rest := Fraction(s[1..], weight / 10);
      Num((s[0] as int - '0' as int) * weight + rest.value, rest.next + 1)
    else Num(0, 0)
  }

  /** strtof() on [sign] digits [. digits], in millionths. */
  function Strtof(s: string): (r: Num)
    ensures r.next <= |s|
  {
    var p := SkipSpace(s, 0);
    var sign := if p < |s| && (s[p] == '-' || s[p] == '+') then 1 else 0;
    var whole := DigitsFrom(s, p + sign, 0);
    var dot := whole.next < |s| && s[whole.next] == '.';
    var part := if dot then Fraction(s[whole.next + 1..], 100000) else Num(0, 0);
    if whole.next == p + sign && part.next == 0 then Num(0, 0)
    else
      var value := whole.value * 1000000 + part.value;
      Num(if sign == 1 && s[p] == '-' then -value else value, if dot then whole.next + 1 + part.next else whole.next)
  }

  predicate AllDigits(s: string) {
    forall k :: 0 <= k < |s| ==> IsDigit(s[k])
  }

  function Ten(k: nat): nat {
    if k == 0 then 1 else 10 * Ten(k - 1)
  }

  lemma {:induction false} NatTextLength(n: nat, k: nat)
    requires Ten(k) <= n < Ten(k + 1)
    ensures |NatText(n)| == k + 1
    decreases k
  {
    if k > 0 { NatTextLength(n / 10, k - 1); }
  }

  /** The value of digits, first one first. */
  lemma {:induction false} FoldFront(s: string)
    requires s != "" && AllDigits(s)
    ensures AllDigits(s[1..]) && Fold(s) == (s[0] as int - '0' as int) * Ten(|s| - 1) + Fold(s[1..])
    decreases |s|
  {
    var last := |s| - 1;
    if last == 0 {
      assert s[..0] == "" && s[1..] == "";
    } else {
      FoldFront(s[..last]);
      assert s[..last][1..] == s[1..][..last - 1];
      var d := s[0] as int - '0' as int;
      assert 10 * (d * Ten(last - 1)) == d * Ten(last);
    }
  }

  lemma {:induction false} FractionIsFold(s: string)
    requires s != "" && AllDigits(s)
    ensures Fraction(s, Ten(|s| - 1)) == Num(Fold(s), |s|)
    decreases |s|
  {
    FoldFront(s);
    assert IsDigit(s[0]);
    if |s| > 1 {
      FractionIsFold(s[1..]);
      assert Ten(|s| - 1) / 10 == Ten(|s| - 2);
    } else {
      assert s[1..] == "";
    }
  }

  lemma {:induction false} FractionDropsZero(s: string, weight: nat)
    requires AllDigits(s)
    ensures Fraction(s + "0", weight) == Num(Fraction(s, weight).value, |s| + 1) && Fraction(s, weight).next == |s|
    decreases |s|
  {
    if s == "" {
      assert (s + "0")[1..] == "";
    } else {
      assert (s + "0")[1..] == s[1..] + "0";
      assert IsDigit(s[0]);
      FractionDropsZero(s[1..], weight / 10);
    }
  }

  lemma {:induction false} FractionOfStripped(s: string, weight: nat)
    requires AllDigits(s)
    ensures AllDigits(StripZeros(s))
    ensures Fraction(StripZeros(s), weight) == Num(Fraction(s, weight).value, |StripZeros(s)|)
    decreases |s|
  {
    if s != "" && s[|s| - 1] == '0' {
      var before := s[..|s| - 1];
      assert s == before + "0";
      FractionOfStripped(before, weight);
      FractionDropsZero(before, weight);
    } else {
      FractionDropsZero(s, weight);
    }
  }

  lemma {:induction false} StripKeepsValue(s: string)
    requires AllDigits(s) && Fold(s) > 0
    ensures StripZeros(s) != ""
    decreases |s|
  {
    if s != "" && s[|s| - 1] == '0' { StripKeepsValue(s[..|s| - 1]); }
  }

  /** Reading undoes printing for every number of millionths from 0.1 to 1. */
  lemma StrtofUndoesText(m: int)
    requires 100000 <= m <= 1000000
    ensures Strtof(QualityText(m)) == Num(m, |QualityText(m)|)
  {
    if m == 1000000 {
      assert DigitsFrom("1", 0, 0) == Num(1, 1);
    } else {
      var digits := NatText(m);
      NatTextIs(m);
      assert Ten(5) == 100000 && Ten(6) == 1000000 by { assert Ten(2) == 100; assert Ten(4) == 10000; }
      NatTextLength(m, 5);
      FractionIsFold(digits);
      FractionOfStripped(digits, 100000);
      StripKeepsValue(digits);
      StrtofAt(StripZeros(digits), m);
    }
  }

  lemma StrtofAt(digits: string, m: int)
    requires digits != "" && Fraction(digits, 100000) == Num(m, |digits|)
    ensures Strtof("0." + digits) == Num(m, |"0." + digits|)
  {
    var s := "0." + digits;
    assert s[0] == '0' && s[1] == '.' && s[2..] == digits;
    assert DigitsFrom(s, 1, 0) == Num(0, 1);
    assert DigitsFrom(s, 0, 0) == Num(0, 1);
    assert SkipSpace(s, 0) == 0;
  }
}
