/**
 * The telemetry line dispatcher of the bridge device: an ordered table of
 * line rules, each a pattern and a handler; the first rule whose pattern
 * matches a line runs its handler and no later rule is tried. Handlers update
 * the device model; a history of the three most recent lines lets the last,
 * catch-all rule notice an empty configured-meter list.
 */
module JellyfishBridgeSerial {
  import opened Common
  import opened Text
  import opened BridgeTypes

  const RECENT_HISTORY_LENGTH: nat := 3

  /** `Number.MAX_SAFE_INTEGER`, 2^53 - 1. */
  const MAX_SAFE_INTEGER: nat := 9007199254740991

  /** The header line the device prints before its list of configured meters. */
  const METER_LIST_HEADER: string := "Configured Meter List:"

  function Min(a: nat, b: nat): nat {
    if a <= b then a else b
  }

  // ---------------------------------------------------------------------
  // A fresh device model
  // ---------------------------------------------------------------------

  function NewDeviceMetadata(): DeviceMetadata {
    DeviceMetadata(None, None, None, None, None, None)
  }

  function NewDeviceConfiguration(): DeviceConfiguration {
    DeviceConfiguration(None, None, map[], None, None, None, None)
  }

  function NewDeviceState(): DeviceState {
    DeviceState(None, false, None)
  }

  /** Nothing is known about the device: every field undefined, no meters, bus off, not sending. */
  predicate IsUnobserved(dev: DeviceModel) {
    && dev.metadata.deviceId.None? && dev.metadata.deviceAltId.None?
    && dev.metadata.versionLong.None? && dev.metadata.versionTag.None?
    && dev.metadata.versionShort.None? && dev.metadata.lpwanModemType.None?
    && dev.configuration.stackMode.None? && dev.configuration.meterType.None?
    && dev.configuration.meters == map[] && dev.configuration.time.None?
    && dev.configuration.listeningStart.None? && dev.configuration.listeningCycle.None?
    && dev.configuration.listeningDuration.None?
    && dev.state.runmode.None? && !dev.state.mbusEnabled && dev.state.transmitting.None?
  }

  // ---------------------------------------------------------------------
  // The rule tables
  // ---------------------------------------------------------------------

  /** The rules of both tables, named as in the source. */
  datatype Rule =
    | DeviceId | VersionLong | VersionTag | VersionShort | StackMode
    | ConfiguredMeter | Time | Listening | Runmode | MbusEnabled | MbusDisabled
    | RunmodeNormal | RunmodeConfig | RunmodeHibernate | TransmitStart | TransmitEnd
    | EmptyLine
    | RegisterPreDefinedPrompt

  /** The table for complete lines, in declaration order. */
  const LineRules: seq<Rule> := [
    DeviceId, VersionLong, VersionTag, VersionShort, StackMode,
    ConfiguredMeter, Time, Listening, Runmode, MbusEnabled, MbusDisabled,
    RunmodeNormal, RunmodeConfig, RunmodeHibernate, TransmitStart, TransmitEnd,
    EmptyLine]

  /** The rules of the line table, position by position. */
  lemma LineRulesOrder()
    ensures |LineRules| == 17
    ensures LineRules[0] == DeviceId && LineRules[1] == VersionLong && LineRules[2] == VersionTag
    ensures LineRules[3] == VersionShort && LineRules[4] == StackMode && LineRules[5] == ConfiguredMeter
    ensures LineRules[6] == Time && LineRules[7] == Listening && LineRules[8] == Runmode
    ensures LineRules[9] == MbusEnabled && LineRules[10] == MbusDisabled && LineRules[11] == RunmodeNormal
    ensures LineRules[12] == RunmodeConfig && LineRules[13] == RunmodeHibernate
    ensures LineRules[14] == TransmitStart && LineRules[15] == TransmitEnd && LineRules[16] == EmptyLine
  {
  }

  /** The table for the unterminated tail of the input. */
  const PartialLineRules: seq<Rule> := [RegisterPreDefinedPrompt]

  /** The named capture groups of a successful match. */
  datatype Groups =
    | NoGroups
    | DevIdGroups(id: string, altId: string)
    | MeterTypeGroup(meterType: string)
    | ModemTypeGroup(modemType: string)
    | StackModeGroup(stackMode: string)
    | MeterGroups(index: string, meterId: string, meterKey: string)
    | MinutesGroup(minutesOfDay: string)
    | ListeningGroups(start: string, cycle: string, duration: string)
    | RunmodeGroup(runmode: string)
    | MessageTypeGroup(messageType: string)

  /**
   * The patterns whose exact regular-expression semantics is not modelled
   * (greedy `.+` and `\S+` with backtracking): each is given as a recogniser
   * that says whether the line matches and what the named group captured.
   */
  datatype Recognisers = Recognisers(
    versionLong: string -> Option<string>,    // `.*Version: .+ - (?<meterType>.+)`
    versionTag: string -> Option<string>,     // `(?<modemType>\S+)_FW\S+`
    stackMode: string -> Option<string>,      // ` - STACK MODE \((?<stackMode>.+)\)`
    transmitStart: string -> Option<string>,  // `Sending.. (?<messageType>.+) Message`
    transmitEnd: string -> bool)              // `(?:Finished|Completed) (?<messageType>.+) Transmission`

  /**
   * Recognisers that claim only lines holding the literal text their
   * patterns require: what any faithful implementation of those patterns
   * satisfies.
   */
  ghost predicate Plausible(rec: Recognisers) {
    && (forall line :: rec.versionLong(line).Some? ==> Contains(line, "Version: "))
    && (forall line :: rec.versionTag(line).Some? ==> Contains(line, "_FW"))
    && (forall line :: rec.stackMode(line).Some? ==> Contains(line, " - STACK MODE ("))
    && (forall line :: rec.transmitStart(line).Some? ==> Contains(line, "Sending"))
    && (forall line :: rec.transmitEnd(line) ==> Contains(line, " Transmission"))
  }

  // ---------------------------------------------------------------------
  // Hand-written recognisers for the structured patterns
  // ---------------------------------------------------------------------

  /** The structured patterns recognised exactly. */
  datatype Pattern =
    | DevIdPattern      // `DEVID: (?<id>[A-F0-9]+), (?<altId>[A-F0-9]+)`
    | MeterPattern      // `M(?<index>\d+)=(?<id>[A-F0-9]+),(?<key>[A-F0-9]+)`
    | TimePattern       // `I=(?<minutesOfDay>\d+)`
    | ListeningPattern  // `S=Start\|@Cycle\|Duration=\|(\d+)\|(\d+)\|(\d+)\|`
    | RunmodePattern    // ` - OPM_(?<runmode>\w+)`
    | VersionShortPattern  // `v\w+(?:\.\w+)+`

  const DEVID_PREFIX: string := "DEVID: "
  const LISTENING_PREFIX: string := "S=Start|@Cycle|Duration=|"
  const RUNMODE_PREFIX: string := " - OPM_"

  /** A slice spelling `prefix`, followed by one spelling `piece`, spells `prefix + piece`. */
  lemma SliceExtend(line: string, a: nat, b: nat, c: nat, prefix: string, piece: string)
    requires a <= b <= c <= |line|
    requires line[a..b] == prefix && line[b..c] == piece
    ensures line[a..c] == prefix + piece
  {
    assert line[a..c] == line[a..b] + line[b..c];
  }

  /** Nothing of `cls` stands at position `e`: the line ends there or holds another character. */
  predicate RunEndsAt(line: string, e: nat, cls: CharClass)
    requires e <= |line|
  {
    e == |line| || !InClass(line[e], cls)
  }

  /** The literal `lit` occurs in `line` at position `i`. */
  predicate LiteralAt(line: string, i: nat, lit: string) {
    i + |lit| <= |line| && line[i..i + |lit|] == lit
  }

  /** A non-empty run of `cls` starting at `j` and followed by the literal `sep`: the run's length. */
  function RunThen(line: string, j: nat, cls: CharClass, sep: string): (r: Option<nat>)
    requires j <= |line|
    ensures r.Some? ==> r.value > 0 && r.value == RunLength(line, j, cls) && LiteralAt(line, j + r.value, sep)
    ensures r.Some? ==> AllIn(line[j..j + r.value], cls)
  {
    var n := RunLength(line, j, cls);
    if n == 0 || !LiteralAt(line, j + n, sep) then None
    else
      RunAllIn(line, j, cls);
      Some(n)
  }

  /**
   * `(?<a>[A-F0-9]+)<sep>(?<b>[A-F0-9]+)` starting exactly at `k`, the tail
   * shared by the DEVID and meter patterns: two non-empty hexadecimal words
   * that, with `sep` between them, spell the text from `k` on.
   */
  function HexPairAt(line: string, k: nat, sep: string): (r: Option<(string, string)>)
    requires k <= |line|
    ensures r.Some? ==> |r.value.0| > 0 && AllIn(r.value.0, UpperHex)
    ensures r.Some? ==> |r.value.1| > 0 && AllIn(r.value.1, UpperHex)
    ensures r.Some? ==> LiteralAt(line, k, r.value.0 + sep + r.value.1)
  {
    match RunThen(line, k, UpperHex, sep)
    case None => None
    case Some(n) =>
      var l := k + n + |sep|;
      var m := RunLength(line, l, UpperHex);
      if m == 0 then None
      else
        RunAllIn(line, l, UpperHex);
        SliceExtend(line, k, k + n, l, line[k..k + n], sep);
        SliceExtend(line, k, l, l + m, line[k..k + n] + sep, line[l..l + m]);
        Some((line[k..k + n], line[l..l + m]))
  }

  /**
   * `DEVID: (?<id>[A-F0-9]+), (?<altId>[A-F0-9]+)` starting exactly at `i`:
   * both captures are non-empty hexadecimal words.
   */
  function DevIdAt(line: string, i: nat): (r: Option<Groups>)
    requires i <= |line|
    ensures r.Some? ==> r.value.DevIdGroups? && LiteralAt(line, i, DEVID_PREFIX)
    ensures r.Some? ==> |r.value.id| > 0 && AllIn(r.value.id, UpperHex)
    ensures r.Some? ==> |r.value.altId| > 0 && AllIn(r.value.altId, UpperHex)
  {
    if !LiteralAt(line, i, DEVID_PREFIX) then None
    else match HexPairAt(line, i + |DEVID_PREFIX|, ", ")
      case None => None
      case Some(ids) => Some(DevIdGroups(ids.0, ids.1))
  }

  /**
   * `M(?<index>\d+)=(?<id>[A-F0-9]+),(?<key>[A-F0-9]+)` starting exactly at
   * `i`: the captures are non-empty runs of their classes.
   */
  function MeterAt(line: string, i: nat): (r: Option<Groups>)
    requires i <= |line|
    ensures r.Some? ==> r.value.MeterGroups? && LiteralAt(line, i, "M")
    ensures r.Some? ==> |r.value.index| > 0 && AllIn(r.value.index, Digit)
    ensures r.Some? ==> |r.value.meterId| > 0 && AllIn(r.value.meterId, UpperHex)
    ensures r.Some? ==> |r.value.meterKey| > 0 && AllIn(r.value.meterKey, UpperHex)
  {
    if !LiteralAt(line, i, "M") then None
    else match RunThen(line, i + 1, Digit, "=")
      case None => None
      case Some(d) =>
        match HexPairAt(line, i + 2 + d, ",")
        case None => None
        case Some(idKey) => Some(MeterGroups(line[i + 1..i + 1 + d], idKey.0, idKey.1))
  }

  /** `I=(?<minutesOfDay>\d+)` starting exactly at `i`: the capture follows `I=` and is a digit word. */
  function TimeAt(line: string, i: nat): (r: Option<Groups>)
    requires i <= |line|
    ensures r.Some? ==> r.value.MinutesGroup? && |r.value.minutesOfDay| > 0 && AllIn(r.value.minutesOfDay, Digit)
    ensures r.Some? ==> LiteralAt(line, i, "I=" + r.value.minutesOfDay)
  {
    if !LiteralAt(line, i, "I=") then None
    else
      var d := RunLength(line, i + 2, Digit);
      if d == 0 then None
      else
        RunAllIn(line, i + 2, Digit);
        SliceExtend(line, i, i + 2, i + 2 + d, "I=", line[i + 2..i + 2 + d]);
        Some(MinutesGroup(line[i + 2..i + 2 + d]))
  }

  /**
   * The listening-window triple `S=Start|@Cycle|Duration=|<d>|<d>|<d>|`
   * starting exactly at `i`: three digit words.
   */
  function ListeningAt(line: string, i: nat): (r: Option<Groups>)
    requires i <= |line|
    ensures r.Some? ==> r.value.ListeningGroups? && LiteralAt(line, i, LISTENING_PREFIX)
    ensures r.Some? ==> |r.value.start| > 0 && AllIn(r.value.start, Digit)
    ensures r.Some? ==> |r.value.cycle| > 0 && AllIn(r.value.cycle, Digit)
    ensures r.Some? ==> |r.value.duration| > 0 && AllIn(r.value.duration, Digit)
  {
    if !LiteralAt(line, i, LISTENING_PREFIX) then None
    else match DigitField(line, i + |LISTENING_PREFIX|)
      case None => None
      case Some(f1) =>
        match DigitField(line, f1.1)
        case None => None
        case Some(f2) =>
          match DigitField(line, f2.1)
          case None => None
          case Some(f3) => Some(ListeningGroups(f1.0, f2.0, f3.0))
  }

  /** `(\d+)\|` starting exactly at `j`: the digit word and the position after the bar. */
  function DigitField(line: string, j: nat): (r: Option<(string, nat)>)
    requires j <= |line|
    ensures r.Some? ==> |r.value.0| > 0 && AllIn(r.value.0, Digit) && r.value.1 <= |line|
  {
    match RunThen(line, j, Digit, "|")
    case None => None
    case Some(n) => Some((line[j..j + n], j + n + 1))
  }

  /** ` - OPM_(?<runmode>\w+)` starting exactly at `i`: the capture follows the prefix and is a word. */
  function RunmodeAt(line: string, i: nat): (r: Option<Groups>)
    requires i <= |line|
    ensures r.Some? ==> r.value.RunmodeGroup? && |r.value.runmode| > 0 && AllIn(r.value.runmode, Word)
    ensures r.Some? ==> LiteralAt(line, i, RUNMODE_PREFIX + r.value.runmode)
  {
    if !LiteralAt(line, i, RUNMODE_PREFIX) then None
    else
      var j := i + |RUNMODE_PREFIX|;
      var n := RunLength(line, j, Word);
      if n == 0 then None
      else
        RunAllIn(line, j, Word);
        SliceExtend(line, i, j, j + n, RUNMODE_PREFIX, line[j..j + n]);
        Some(RunmodeGroup(line[j..j + n]))
  }

  /**
   * `v\w+(?:\.\w+)+` starting exactly at `i`: a `v`, a word, a dot and a
   * word. The greedy first `\w+` stops at the dot, which no word character
   * can stand for, so no backtracking is ever needed; further `.word`
   * repetitions only lengthen the match, which has no captures.
   */
  function VersionShortAt(line: string, i: nat): (r: Option<Groups>)
    requires i <= |line|
    ensures r.Some? ==> r.value == NoGroups && LiteralAt(line, i, "v") && '.' in line[i..]
  {
    if !LiteralAt(line, i, "v") then None
    else
      var n := RunLength(line, i + 1, Word);
      if n == 0 || !LiteralAt(line, i + 1 + n, ".") then None
      else if RunLength(line, i + 2 + n, Word) == 0 then None
      else
        assert line[i..][1 + n] == '.';
        Some(NoGroups)
  }

  /** A slice spelling `a + b` spells `a` and then `b`. */
  lemma SliceSplit(line: string, i: nat, a: string, b: string)
    requires LiteralAt(line, i, a + b)
    ensures LiteralAt(line, i, a) && LiteralAt(line, i + |a|, b)
  {
    assert line[i..i + |a|] == (a + b)[..|a|];
    assert line[i + |a|..i + |a| + |b|] == (a + b)[|a|..];
  }

  /**
   * Every hex pair is recognised: the first capture is the first word
   * spelled, the second extends the second word and equals it when no hex
   * digit follows.
   */
  lemma HexPairAtComplete(line: string, k: nat, a: string, sep: string, b: string)
    requires |a| > 0 && AllIn(a, UpperHex) && |b| > 0 && AllIn(b, UpperHex)
    requires |sep| > 0 && !InClass(sep[0], UpperHex)
    requires LiteralAt(line, k, a + sep + b)
    ensures HexPairAt(line, k, sep).Some? && HexPairAt(line, k, sep).value.0 == a
    ensures b <= HexPairAt(line, k, sep).value.1
    ensures var e := k + |a| + |sep| + |b|;
            RunEndsAt(line, e, UpperHex) ==> HexPairAt(line, k, sep) == Some((a, b))
  {
    SliceSplit(line, k, a + sep, b);
    SliceSplit(line, k, a, sep);
    WordThen(line, k, a, UpperHex, sep);
    var l := k + |a| + |sep|;
    RunCoversWord(line, l, b, UpperHex);
    var m := RunLength(line, l, UpperHex);
    assert line[l..l + m][..|b|] == b;
  }

  /** The second word of a hex pair is captured whole when no hex digit follows it. */
  lemma HexPairAtExact(line: string, k: nat, a: string, sep: string, b: string, e: nat)
    requires |a| > 0 && AllIn(a, UpperHex) && |b| > 0 && AllIn(b, UpperHex)
    requires |sep| > 0 && !InClass(sep[0], UpperHex)
    requires LiteralAt(line, k, a + sep + b) && e == k + |a| + |sep| + |b|
    ensures RunEndsAt(line, e, UpperHex) ==> HexPairAt(line, k, sep) == Some((a, b))
  {
    HexPairAtComplete(line, k, a, sep, b);
  }

  /**
   * Every DEVID line is recognised: at a position spelling `DEVID: `, a hex
   * word, `, ` and a hex word, the id capture is that word and the alternate
   * id capture extends the second, equalling it when no hex digit follows.
   */
  lemma DevIdAtComplete(line: string, i: nat, id: string, altId: string)
    requires |id| > 0 && AllIn(id, UpperHex) && |altId| > 0 && AllIn(altId, UpperHex)
    requires LiteralAt(line, i, DEVID_PREFIX + id + ", " + altId)
    ensures DevIdAt(line, i).Some? && DevIdAt(line, i).value.id == id
    ensures altId <= DevIdAt(line, i).value.altId
    ensures var e := i + |DEVID_PREFIX + id + ", " + altId|;
            RunEndsAt(line, e, UpperHex) ==> DevIdAt(line, i) == Some(DevIdGroups(id, altId))
  {
    assert DEVID_PREFIX + id + ", " + altId == DEVID_PREFIX + (id + ", " + altId);
    SliceSplit(line, i, DEVID_PREFIX, id + ", " + altId);
    HexPairAtComplete(line, i + |DEVID_PREFIX|, id, ", ", altId);
  }

  /**
   * Every configured-meter line is recognised: the index and id captures
   * are the words spelled, the key capture extends the key spelled and
   * equals it when no hex digit follows.
   */
  lemma MeterAtComplete(line: string, i: nat, index: string, meterId: string, meterKey: string)
    requires |index| > 0 && AllIn(index, Digit)
    requires |meterId| > 0 && AllIn(meterId, UpperHex) && |meterKey| > 0 && AllIn(meterKey, UpperHex)
    requires LiteralAt(line, i, "M" + index + "=" + meterId + "," + meterKey)
    ensures MeterAt(line, i).Some?
    ensures MeterAt(line, i).value.index == index && MeterAt(line, i).value.meterId == meterId
    ensures meterKey <= MeterAt(line, i).value.meterKey
    ensures var e := i + 3 + |index| + |meterId| + |meterKey|;
            RunEndsAt(line, e, UpperHex) ==> MeterAt(line, i) == Some(MeterGroups(index, meterId, meterKey))
  {
    MeterHead(line, i, index, meterId + "," + meterKey);
    MeterAtPieces(line, i, index, meterId, meterKey);
  }

  lemma MeterHead(line: string, i: nat, index: string, rest: string)
    requires LiteralAt(line, i, "M" + index + "=" + rest)
    ensures LiteralAt(line, i, "M") && LiteralAt(line, i + 1, index)
    ensures LiteralAt(line, i + 1 + |index|, "=") && LiteralAt(line, i + 2 + |index|, rest)
  {
    SliceSplit(line, i, "M" + index + "=", rest);
    SliceSplit(line, i, "M" + index, "=");
    SliceSplit(line, i, "M", index);
  }

  lemma MeterAtPieces(line: string, i: nat, index: string, meterId: string, meterKey: string)
    requires |index| > 0 && AllIn(index, Digit)
    requires |meterId| > 0 && AllIn(meterId, UpperHex) && |meterKey| > 0 && AllIn(meterKey, UpperHex)
    requires LiteralAt(line, i, "M") && LiteralAt(line, i + 1, index) && LiteralAt(line, i + 1 + |index|, "=")
    requires LiteralAt(line, i + 2 + |index|, meterId + "," + meterKey)
    ensures MeterAt(line, i).Some?
    ensures MeterAt(line, i).value.index == index && MeterAt(line, i).value.meterId == meterId
    ensures meterKey <= MeterAt(line, i).value.meterKey
    ensures RunEndsAt(line, i + 3 + |index| + |meterId| + |meterKey|, UpperHex)
            ==> MeterAt(line, i) == Some(MeterGroups(index, meterId, meterKey))
  {
    var k := i + 2 + |index|;
    WordThen(line, i + 1, index, Digit, "=");
    HexPairAtComplete(line, k, meterId, ",", meterKey);
    MeterAtIndex(line, i, index, |index|, k, HexPairAt(line, k, ",").value);
    MeterAtExact(line, i, index, meterId, meterKey);
  }

  lemma MeterAtExact(line: string, i: nat, index: string, meterId: string, meterKey: string)
    requires |index| > 0 && AllIn(index, Digit)
    requires |meterId| > 0 && AllIn(meterId, UpperHex) && |meterKey| > 0 && AllIn(meterKey, UpperHex)
    requires LiteralAt(line, i, "M") && LiteralAt(line, i + 1, index) && LiteralAt(line, i + 1 + |index|, "=")
    requires LiteralAt(line, i + 2 + |index|, meterId + "," + meterKey)
    ensures RunEndsAt(line, i + 3 + |index| + |meterId| + |meterKey|, UpperHex)
            ==> MeterAt(line, i) == Some(MeterGroups(index, meterId, meterKey))
  {
    var e := i + 3 + |index| + |meterId| + |meterKey|;
    if RunEndsAt(line, e, UpperHex) {
      var k := i + 2 + |index|;
      WordThen(line, i + 1, index, Digit, "=");
      HexPairAtExact(line, k, meterId, ",", meterKey, e);
      MeterAtIndex(line, i, index, |index|, k, (meterId, meterKey));
    }
  }

  /** Once `M`, the index and `=` are recognised, the rest of a meter match is the hex pair. */
  lemma MeterAtIndex(line: string, i: nat, index: string, d: nat, k: nat, pair: (string, string))
    requires LiteralAt(line, i, "M") && RunThen(line, i + 1, Digit, "=") == Some(d)
    requires d == |index| && line[i + 1..i + 1 + d] == index
    requires k == i + 2 + d && k <= |line| && HexPairAt(line, k, ",") == Some(pair)
    ensures MeterAt(line, i) == Some(MeterGroups(index, pair.0, pair.1))
  {
    assert HexPairAt(line, i + 2 + d, ",") == Some(pair);
  }

  /** Every `I=` line is recognised: the capture extends the digits spelled, and equals them when no digit follows. */
  lemma TimeAtComplete(line: string, i: nat, minutes: string)
    requires |minutes| > 0 && AllIn(minutes, Digit) && LiteralAt(line, i, "I=" + minutes)
    ensures TimeAt(line, i).Some? && minutes <= TimeAt(line, i).value.minutesOfDay
    ensures var e := i + 2 + |minutes|;
            RunEndsAt(line, e, Digit) ==> TimeAt(line, i) == Some(MinutesGroup(minutes))
  {
    SliceSplit(line, i, "I=", minutes);
    RunCoversWord(line, i + 2, minutes, Digit);
    var d := RunLength(line, i + 2, Digit);
    assert line[i + 2..i + 2 + d][..|minutes|] == minutes;
  }

  /** Every listening-window line is recognised, with exactly the three numbers spelled. */
  lemma ListeningAtComplete(line: string, i: nat, start: string, cycle: string, duration: string)
    requires |start| > 0 && AllIn(start, Digit) && |cycle| > 0 && AllIn(cycle, Digit)
    requires |duration| > 0 && AllIn(duration, Digit)
    requires LiteralAt(line, i, LISTENING_PREFIX + start + "|" + cycle + "|" + duration + "|")
    ensures ListeningAt(line, i) == Some(ListeningGroups(start, cycle, duration))
  {
    var a := i + |LISTENING_PREFIX|;
    var b := a + |start| + 1;
    var c := b + |cycle| + 1;
    SliceSplit(line, i, LISTENING_PREFIX + start + "|" + cycle + "|" + duration, "|");
    SliceSplit(line, i, LISTENING_PREFIX + start + "|" + cycle + "|", duration);
    ListeningHead(line, i, start, cycle);
    ListeningAtPieces(line, i, a, b, c, start, cycle, duration);
  }

  lemma ListeningHead(line: string, i: nat, start: string, cycle: string)
    requires LiteralAt(line, i, LISTENING_PREFIX + start + "|" + cycle + "|")
    ensures LiteralAt(line, i, LISTENING_PREFIX) && LiteralAt(line, i + |LISTENING_PREFIX|, start)
    ensures LiteralAt(line, i + |LISTENING_PREFIX| + |start|, "|")
    ensures LiteralAt(line, i + |LISTENING_PREFIX| + |start| + 1, cycle)
    ensures LiteralAt(line, i + |LISTENING_PREFIX| + |start| + 1 + |cycle|, "|")
  {
    SliceSplit(line, i, LISTENING_PREFIX + start + "|" + cycle, "|");
    SliceSplit(line, i, LISTENING_PREFIX + start + "|", cycle);
    SliceSplit(line, i, LISTENING_PREFIX + start, "|");
    SliceSplit(line, i, LISTENING_PREFIX, start);
  }

  /** The three bar-terminated digit fields at `a`, `b` and `c` after the prefix make the listening match. */
  lemma ListeningAtPieces(line: string, i: nat, a: nat, b: nat, c: nat, start: string, cycle: string, duration: string)
    requires |start| > 0 && AllIn(start, Digit) && |cycle| > 0 && AllIn(cycle, Digit)
    requires |duration| > 0 && AllIn(duration, Digit)
    requires LiteralAt(line, i, LISTENING_PREFIX) && a == i + |LISTENING_PREFIX|
    requires LiteralAt(line, a, start) && LiteralAt(line, a + |start|, "|") && b == a + |start| + 1
    requires LiteralAt(line, b, cycle) && LiteralAt(line, b + |cycle|, "|") && c == b + |cycle| + 1
    requires LiteralAt(line, c, duration) && LiteralAt(line, c + |duration|, "|")
    ensures ListeningAt(line, i) == Some(ListeningGroups(start, cycle, duration))
  {
    DigitFieldComplete(line, a, start, b);
    DigitFieldComplete(line, b, cycle, c);
    DigitFieldComplete(line, c, duration, c + |duration| + 1);
  }

  /** A digit word followed by a bar is exactly the field there, and the next field starts at `next`. */
  lemma DigitFieldComplete(line: string, j: nat, w: string, next: nat)
    requires |w| > 0 && AllIn(w, Digit) && LiteralAt(line, j, w) && LiteralAt(line, j + |w|, "|")
    requires next == j + |w| + 1
    ensures DigitField(line, j) == Some((w, next))
  {
    WordThen(line, j, w, Digit, "|");
  }

  /** A word of `cls` followed by the literal `sep`, which `cls` excludes, is exactly the run there. */
  lemma WordThen(line: string, a: nat, w: string, cls: CharClass, sep: string)
    requires |w| > 0 && AllIn(w, cls) && |sep| > 0 && !InClass(sep[0], cls)
    requires LiteralAt(line, a, w) && LiteralAt(line, a + |w|, sep)
    ensures RunThen(line, a, cls, sep) == Some(|w|) && line[a..a + |w|] == w
  {
    assert line[a + |w|] == sep[0];
    RunCoversWord(line, a, w, cls);
  }

  /** Every ` - OPM_` line is recognised: the capture extends the word spelled, and equals it when no word character follows. */
  lemma RunmodeAtComplete(line: string, i: nat, runmode: string)
    requires |runmode| > 0 && AllIn(runmode, Word) && LiteralAt(line, i, RUNMODE_PREFIX + runmode)
    ensures RunmodeAt(line, i).Some? && runmode <= RunmodeAt(line, i).value.runmode
    ensures var e := i + |RUNMODE_PREFIX| + |runmode|;
            RunEndsAt(line, e, Word) ==> RunmodeAt(line, i) == Some(RunmodeGroup(runmode))
  {
    var j := i + |RUNMODE_PREFIX|;
    SliceSplit(line, i, RUNMODE_PREFIX, runmode);
    RunCoversWord(line, j, runmode, Word);
    var n := RunLength(line, j, Word);
    assert line[j..j + n][..|runmode|] == runmode;
  }

  /** Every `v<word>.<word>` is recognised as a short version. */
  lemma VersionShortAtComplete(line: string, i: nat, major: string, minor: string)
    requires |major| > 0 && AllIn(major, Word) && |minor| > 0 && AllIn(minor, Word)
    requires LiteralAt(line, i, "v" + major + "." + minor)
    ensures VersionShortAt(line, i) == Some(NoGroups)
  {
    SliceSplit(line, i, "v" + major + ".", minor);
    SliceSplit(line, i, "v" + major, ".");
    SliceSplit(line, i, "v", major);
    assert line[i + 1 + |major|] == '.';
    RunCoversWord(line, i + 1, major, Word);
    RunCoversWord(line, i + 2 + |major|, minor, Word);
  }

  /**
   * A match of the pattern starting exactly at position `i`. Every run of a
   * class is taken whole: the item after it (a literal, or the end of the
   * pattern) cannot start inside the run, so backtracking never shortens it.
   */
  function PatternAt(p: Pattern, line: string, i: nat): Option<Groups>
    requires i <= |line|
  {
    match p
    case DevIdPattern => DevIdAt(line, i)
    case MeterPattern => MeterAt(line, i)
    case TimePattern => TimeAt(line, i)
    case ListeningPattern => ListeningAt(line, i)
    case RunmodePattern => RunmodeAt(line, i)
    case VersionShortPattern => VersionShortAt(line, i)
  }

  /** The leftmost position from `i` on where the pattern matches, if any. */
  function MatchPosition(p: Pattern, line: string, i: nat): (r: Option<nat>)
    requires i <= |line|
    ensures r.Some? ==> i <= r.value <= |line| && PatternAt(p, line, r.value).Some?
    ensures r.Some? ==> forall j :: i <= j < r.value ==> PatternAt(p, line, j).None?
    ensures r.None? ==> forall k :: i <= k <= |line| ==> PatternAt(p, line, k).None?
    decreases |line| - i
  {
    if PatternAt(p, line, i).Some? then Some(i)
    else if i == |line| then None
    else MatchPosition(p, line, i + 1)
  }

  /** `regex.exec(line)`: the captures of the match at the leftmost position where there is one. */
  function Leftmost(p: Pattern, line: string): Option<Groups> {
    match MatchPosition(p, line, 0)
    case Some(k) => PatternAt(p, line, k)
    case None => None
  }

  /** A capture-free pattern matched: `Some(NoGroups)`. */
  function Found(b: bool): Option<Groups> {
    if b then Some(NoGroups) else None
  }

  /** Whether, and with which captures, the pattern of `rule` matches `line`. */
  function Exec(rec: Recognisers, rule: Rule, line: string): Option<Groups> {
    match rule
    case DeviceId => Leftmost(DevIdPattern, line)
    case VersionLong =>
      (match rec.versionLong(line) case Some(t) => Some(MeterTypeGroup(t)) case None => None)
    case VersionTag =>
      (match rec.versionTag(line) case Some(t) => Some(ModemTypeGroup(t)) case None => None)
    case VersionShort => Leftmost(VersionShortPattern, line)
    case StackMode =>
      (match rec.stackMode(line) case Some(m) => Some(StackModeGroup(m)) case None => None)
    case ConfiguredMeter => Leftmost(MeterPattern, line)
    case Time => Leftmost(TimePattern, line)
    case Listening => Leftmost(ListeningPattern, line)
    case Runmode => Leftmost(RunmodePattern, line)
    case MbusEnabled => Found(Contains(line, "Enabling MBUS"))
    case MbusDisabled => Found(Contains(line, "MBUS disabled"))
    case RunmodeNormal => Found(Contains(line, "@08>>"))
    case RunmodeConfig => Found(Contains(line, "@07>>"))
    case RunmodeHibernate => Found(Contains(line, "@04>>"))
    case TransmitStart =>
      (match rec.transmitStart(line) case Some(t) => Some(MessageTypeGroup(t)) case None => None)
    case TransmitEnd => Found(rec.transmitEnd(line))
    case EmptyLine => Found(Contains(line, " "))
    case RegisterPreDefinedPrompt => Found(Contains(line, "@05"))
  }

  // ---------------------------------------------------------------------
  // Handlers and dispatch, as functions on the device model
  // ---------------------------------------------------------------------

  /**
   * The effect of the handler of `rule` on the device model. A handler whose
   * named groups are missing returns without effect, as the source's
   * `if (!match.groups) return` does. `history` is the line history as it
   * stands before the current line is recorded.
   */
  function Handle(rule: Rule, g: Groups, line: string, dev: DeviceModel, history: seq<string>): DeviceModel {
    var md, cf, st := dev.metadata, dev.configuration, dev.state;
    match rule
    case DeviceId =>
      if g.DevIdGroups? then dev.(metadata := md.(deviceId := Some(g.id), deviceAltId := Some(g.altId))) else dev
    case VersionLong =>
      if g.MeterTypeGroup? then
        dev.(metadata := md.(versionLong := Some(line)), configuration := cf.(meterType := Some(g.meterType)))
      else dev
    case VersionTag =>
      if g.ModemTypeGroup? then dev.(metadata := md.(lpwanModemType := Some(g.modemType), versionTag := Some(line))) else dev
    case VersionShort => dev.(metadata := md.(versionShort := Some(line)))
    case StackMode =>
      if g.StackModeGroup? then dev.(configuration := cf.(stackMode := Some(g.stackMode))) else dev
    case ConfiguredMeter =>
      if g.MeterGroups? then
        var index := DecimalValue(g.index);
        if index <= MAX_SAFE_INTEGER then
          dev.(configuration := cf.(meters := cf.meters[index := MeterConfig(g.meterId, g.meterKey)]))
        else dev
      else dev
    case Time =>
      if g.MinutesGroup? then dev.(configuration := cf.(time := Some(DecimalValue(g.minutesOfDay)))) else dev
    case Listening =>
      if g.ListeningGroups? then
        dev.(configuration := cf.(listeningStart := Some(DecimalValue(g.start)),
                                  listeningCycle := Some(DecimalValue(g.cycle)),
                                  listeningDuration := Some(DecimalValue(g.duration))))
      else dev
    case Runmode =>
      if g.RunmodeGroup? then dev.(state := st.(runmode := Some(g.runmode))) else dev
    case MbusEnabled => dev.(state := st.(mbusEnabled := true))
    case MbusDisabled => dev.(state := st.(mbusEnabled := false))
    case RunmodeNormal => dev.(state := st.(runmode := Some("NORMAL")))
    case RunmodeConfig => dev.(state := st.(runmode := Some("CONFIG")))
    case RunmodeHibernate => dev
    case TransmitStart =>
      if g.MessageTypeGroup? then dev.(state := st.(transmitting := Some(g.messageType))) else dev
    case TransmitEnd => dev.(state := st.(transmitting := None))
    case EmptyLine =>
      if |history| > 1 && Contains(history[1], METER_LIST_HEADER) then
        dev.(configuration := cf.(meters := map[]))
      else dev
    case RegisterPreDefinedPrompt => dev
  }

  /** The first rule of `table` from `from` on whose pattern matches, with its captures. */
  function FirstMatch(rec: Recognisers, table: seq<Rule>, line: string, from: nat): (r: Option<(nat, Groups)>)
    requires from <= |table|
    ensures r.Some? ==> from <= r.value.0 < |table| && Exec(rec, table[r.value.0], line) == Some(r.value.1)
    ensures r.Some? ==> forall j :: from <= j < r.value.0 ==> Exec(rec, table[j], line).None?
    ensures r.None? ==> forall j :: from <= j < |table| ==> Exec(rec, table[j], line).None?
    decreases |table| - from
  {
    if from == |table| then None
    else match Exec(rec, table[from], line)
      case Some(g) => Some((from, g))
      case None => FirstMatch(rec, table, line, from + 1)
  }

  /** The rule that handles `line`, if any. */
  function MatchedRule(rec: Recognisers, table: seq<Rule>, line: string): Option<Rule> {
    match FirstMatch(rec, table, line, 0)
    case None => None
    case Some(m) => Some(table[m.0])
  }

  /** `matchLine`: only the first matching rule's handler runs; with no match nothing changes. */
  function Dispatch(rec: Recognisers, table: seq<Rule>, line: string, dev: DeviceModel, history: seq<string>): (r: DeviceModel)
    ensures (forall j :: 0 <= j < |table| ==> Exec(rec, table[j], line).None?) ==> r == dev
  {
    match FirstMatch(rec, table, line, 0)
    case None => dev
    case Some(m) => Handle(table[m.0], m.1, line, dev, history)
  }

  /** `updateRecentLineHistory`: the new line goes in front and only the newest three are kept. */
  function Recent(line: string, history: seq<string>): (r: seq<string>)
    ensures |r| == Min(RECENT_HISTORY_LENGTH, |history| + 1)
    ensures r[0] == line
    ensures forall i :: 1 <= i < |r| ==> r[i] == history[i - 1]
  {
    ([line] + history)[..Min(RECENT_HISTORY_LENGTH, |history| + 1)]
  }

  /** `serialLineCallback`: dispatch against the line table first, record the line second. */
  function LineStep(rec: Recognisers, line: string, dev: DeviceModel, history: seq<string>): (DeviceModel, seq<string>) {
    (Dispatch(rec, LineRules, line, dev, history), Recent(line, history))
  }

  /** A run of complete lines, oldest first. */
  function Steps(rec: Recognisers, lines: seq<string>, dev: DeviceModel, history: seq<string>): (DeviceModel, seq<string>)
    decreases |lines|
  {
    if lines == [] then (dev, history)
    else
      var before := Steps(rec, lines[..|lines| - 1], dev, history);
      LineStep(rec, lines[|lines| - 1], before.0, before.1)
  }

  // ---------------------------------------------------------------------
  // Properties of the dispatcher
  // ---------------------------------------------------------------------

  /** The catch-all rule is the last of the seventeen and matches exactly the lines with a space. */
  lemma EmptyLineIsLastCatchAll(rec: Recognisers, line: string)
    ensures |LineRules| == 17 && LineRules[16] == EmptyLine
    ensures forall j :: 0 <= j < 16 ==> LineRules[j] != EmptyLine
    ensures Exec(rec, EmptyLine, line).Some? <==> Contains(line, " ")
    ensures Contains(line, " ") ==> MatchedRule(rec, LineRules, line).Some?
  {
  }

  /** The catch-all handles a line exactly when the line has a space and no earlier rule matched it. */
  lemma EmptyLineOnlyWhenNoEarlierRule(rec: Recognisers, line: string)
    ensures MatchedRule(rec, LineRules, line) == Some(EmptyLine)
        <==> Contains(line, " ") && forall j :: 0 <= j < 16 ==> Exec(rec, LineRules[j], line).None?
  {
    EmptyLineIsLastCatchAll(rec, line);
    if Contains(line, " ") && forall j :: 0 <= j < 16 ==> Exec(rec, LineRules[j], line).None? {
      assert Exec(rec, LineRules[16], line).Some?;
    }
  }

  /**
   * On a line the catch-all handles, the meter map is emptied when the line
   * before the previous one was the meter list header, and nothing else changes.
   */
  lemma EmptyLineClearsMetersAfterHeader(rec: Recognisers, line: string, dev: DeviceModel, history: seq<string>)
    requires MatchedRule(rec, LineRules, line) == Some(EmptyLine)
    ensures Dispatch(rec, LineRules, line, dev, history)
         == if |history| > 1 && Contains(history[1], METER_LIST_HEADER)
            then dev.(configuration := dev.configuration.(meters := map[]))
            else dev
  {
    LineRulesOrder();
    var m := FirstMatch(rec, LineRules, line, 0).value;
    assert LineRules[m.0] == EmptyLine;
    assert Dispatch(rec, LineRules, line, dev, history) == Handle(EmptyLine, m.1, line, dev, history);
  }

  /** The history after a run of lines, oldest first: the line history alone. */
  function HistoryAfter(lines: seq<string>, history: seq<string>): seq<string>
    decreases |lines|
  {
    if lines == [] then history else Recent(lines[|lines| - 1], HistoryAfter(lines[..|lines| - 1], history))
  }

  lemma {:induction false} StepsHistory(rec: Recognisers, lines: seq<string>, dev: DeviceModel, history: seq<string>)
    ensures Steps(rec, lines, dev, history).1 == HistoryAfter(lines, history)
    decreases |lines|
  {
    if lines != [] {
      StepsHistory(rec, lines[..|lines| - 1], dev, history);
    }
  }

  /** After any run of lines the history holds the newest lines, newest first, at most three. */
  lemma {:induction false} HistoryHoldsNewestLines(lines: seq<string>, history: seq<string>)
    requires |history| <= RECENT_HISTORY_LENGTH
    ensures var h := HistoryAfter(lines, history);
      && |h| == Min(RECENT_HISTORY_LENGTH, |lines| + |history|)
      && (forall i :: 0 <= i < |h| && i < |lines| ==> h[i] == lines[|lines| - 1 - i])
      && (forall i :: |lines| <= i < |h| ==> h[i] == history[i - |lines|])
    decreases |lines|
  {
    if lines != [] {
      var prefix := lines[..|lines| - 1];
      HistoryHoldsNewestLines(prefix, history);
      var h0 := HistoryAfter(prefix, history);
      var h := HistoryAfter(lines, history);
      forall i | 1 <= i < |h| && i < |lines|
        ensures h[i] == lines[|lines| - 1 - i]
      {
        assert h[i] == h0[i - 1];
        assert h0[i - 1] == prefix[|prefix| - 1 - (i - 1)];
      }
      forall i | |lines| <= i < |h|
        ensures h[i] == history[i - |lines|]
      {
        assert h[i] == h0[i - 1];
      }
    }
  }

  /**
   * End to end: a line the catch-all handles empties the meter map exactly
   * when the line two before it was the meter list header.
   */
  lemma MeterListEmptiedTwoLinesAfterHeader(rec: Recognisers, lines: seq<string>, line: string, dev: DeviceModel, history: seq<string>)
    requires |history| <= RECENT_HISTORY_LENGTH && |lines| >= 2
    requires MatchedRule(rec, LineRules, line) == Some(EmptyLine)
    ensures var before := Steps(rec, lines, dev, history).0;
      Steps(rec, lines + [line], dev, history).0
        == if Contains(lines[|lines| - 2], METER_LIST_HEADER)
           then before.(configuration := before.configuration.(meters := map[]))
           else before
  {
    assert (lines + [line])[..|lines|] == lines;
    StepsHistory(rec, lines, dev, history);
    HistoryHoldsNewestLines(lines, history);
    var h := Steps(rec, lines, dev, history).1;
    assert h[1] == lines[|lines| - 2];
    EmptyLineClearsMetersAfterHeader(rec, line, Steps(rec, lines, dev, history).0, h);
  }

  /** A meter line writes exactly the slot its index names, and only when the index is a safe integer. */
  lemma MeterLineWritesOneSlot(g: Groups, line: string, dev: DeviceModel, history: seq<string>)
    requires g.MeterGroups?
    ensures var r := Handle(ConfiguredMeter, g, line, dev, history);
            var slot := DecimalValue(g.index);
            var m, m' := dev.configuration.meters, r.configuration.meters;
            && (slot <= MAX_SAFE_INTEGER ==> slot in m' && m'[slot] == MeterConfig(g.meterId, g.meterKey))
            && (slot > MAX_SAFE_INTEGER ==> r == dev)
            && (forall s :: s != slot ==> (s in m' <==> s in m))
            && (forall s :: s != slot && s in m ==> m'[s] == m[s])
            && r == dev.(configuration := dev.configuration.(meters := m'))
  {
  }

  /** Two meter lines for the same slot: the later one wins. */
  lemma MeterLastWriteWins(g1: Groups, g2: Groups, line1: string, line2: string, dev: DeviceModel, h1: seq<string>, h2: seq<string>)
    requires g1.MeterGroups? && g2.MeterGroups?
    requires DecimalValue(g1.index) == DecimalValue(g2.index) <= MAX_SAFE_INTEGER
    ensures Handle(ConfiguredMeter, g2, line2, Handle(ConfiguredMeter, g1, line1, dev, h1), h2).configuration.meters
         == dev.configuration.meters[DecimalValue(g1.index) := MeterConfig(g2.meterId, g2.meterKey)]
  {
  }

  /** `M03=…` and `M3=…` address the same slot. */
  lemma MeterIndexLeadingZero(digits: string, id: string, key: string, line: string, dev: DeviceModel, history: seq<string>)
    ensures Handle(ConfiguredMeter, MeterGroups("0" + digits, id, key), line, dev, history)
         == Handle(ConfiguredMeter, MeterGroups(digits, id, key), line, dev, history)
  {
    LeadingZeroIgnored(digits);
  }

  /** A meter match at `i` spells out its captures, with the literals between them, from `i` on. */
  lemma MeterAtSpells(line: string, i: nat, g: Groups)
    requires i <= |line| && MeterAt(line, i) == Some(g)
    ensures g.MeterGroups? && LiteralAt(line, i, "M" + g.index + "=" + g.meterId + "," + g.meterKey)
  {
    var d := RunThen(line, i + 1, Digit, "=").value;
    assert g.index == line[i + 1..i + 1 + d];
    MeterJoin(line, i, g.index, i + 2 + d, g.meterId, g.meterKey);
  }

  /** The converse of `MeterHead`: the pieces spell the whole. */
  lemma MeterJoin(line: string, i: nat, index: string, k: nat, meterId: string, meterKey: string)
    requires LiteralAt(line, i, "M") && LiteralAt(line, i + 1, index) && LiteralAt(line, i + 1 + |index|, "=")
    requires k == i + 2 + |index| && LiteralAt(line, k, meterId + "," + meterKey)
    ensures LiteralAt(line, i, "M" + index + "=" + meterId + "," + meterKey)
  {
    var rest := meterId + "," + meterKey;
    var j := i + 1 + |index|;
    SliceExtend(line, i, i + 1, j, "M", index);
    SliceExtend(line, i, j, j + 1, "M" + index, "=");
    SliceExtend(line, i, j + 1, j + 1 + |rest|, "M" + index + "=", rest);
    assert "M" + index + "=" + rest == "M" + index + "=" + meterId + "," + meterKey;
  }

  /** What the meter recogniser captures is a digit index and two hex words, as they stand in the line. */
  lemma MeterRecogniserSound(line: string, g: Groups)
    requires Leftmost(MeterPattern, line) == Some(g)
    ensures g.MeterGroups?
    ensures |g.index| > 0 && AllIn(g.index, Digit)
    ensures |g.meterId| > 0 && AllIn(g.meterId, UpperHex)
    ensures |g.meterKey| > 0 && AllIn(g.meterKey, UpperHex)
    ensures Contains(line, "M" + g.index + "=" + g.meterId + "," + g.meterKey)
  {
    var i := MatchPosition(MeterPattern, line, 0).value;
    MeterAtSpells(line, i, g);
    ContainsAt(line, "M" + g.index + "=" + g.meterId + "," + g.meterKey, i);
  }

  /** A DEVID match at `i` spells out its captures, with the literals between them, from `i` on. */
  lemma DevIdAtSpells(line: string, i: nat, g: Groups)
    requires i <= |line| && DevIdAt(line, i) == Some(g)
    ensures g.DevIdGroups?
    ensures var text := DEVID_PREFIX + g.id + ", " + g.altId;
            i + |text| <= |line| && line[i..i + |text|] == text
  {
    var j := i + |DEVID_PREFIX|;
    var tail := g.id + ", " + g.altId;
    assert LiteralAt(line, j, tail);
    SliceExtend(line, i, j, j + |tail|, DEVID_PREFIX, tail);
    assert DEVID_PREFIX + tail == DEVID_PREFIX + g.id + ", " + g.altId;
  }

  /** What the DEVID recogniser captures are two hex words, as they stand in the line. */
  lemma DevIdRecogniserSound(line: string, g: Groups)
    requires Leftmost(DevIdPattern, line) == Some(g)
    ensures g.DevIdGroups?
    ensures |g.id| > 0 && AllIn(g.id, UpperHex)
    ensures |g.altId| > 0 && AllIn(g.altId, UpperHex)
    ensures Contains(line, DEVID_PREFIX + g.id + ", " + g.altId)
  {
    var i := MatchPosition(DevIdPattern, line, 0).value;
    DevIdAtSpells(line, i, g);
    ContainsAt(line, DEVID_PREFIX + g.id + ", " + g.altId, i);
  }

  /** A listening match at `i` spells the prefix and the three bar-terminated fields it captured, from `i` on. */
  lemma ListeningAtSpells(line: string, i: nat, g: Groups)
    requires i <= |line| && ListeningAt(line, i) == Some(g)
    ensures g.ListeningGroups?
    ensures LiteralAt(line, i, LISTENING_PREFIX + g.start + "|" + g.cycle + "|" + g.duration + "|")
  {
    var a := i + |LISTENING_PREFIX|;
    var f1 := DigitField(line, a).value;
    var f2 := DigitField(line, f1.1).value;
    var f3 := DigitField(line, f2.1).value;
    DigitFieldSpells(line, a, f1.0, f1.1);
    DigitFieldSpells(line, f1.1, f2.0, f2.1);
    DigitFieldSpells(line, f2.1, f3.0, f3.1);
    ListeningJoin(line, i, a, f1.1, f2.1, f3.1, f1.0, f2.0, f3.0);
  }

  /** A digit field is the digit word and its bar, and the next field starts after the bar. */
  lemma DigitFieldSpells(line: string, j: nat, w: string, next: nat)
    requires j <= |line| && DigitField(line, j) == Some((w, next))
    ensures LiteralAt(line, j, w + "|") && next == j + |w| + 1
  {
    var n := RunThen(line, j, Digit, "|").value;
    SliceExtend(line, j, j + n, j + n + 1, w, "|");
  }

  /** The prefix and three bar-terminated fields, side by side, spell the whole listening text. */
  lemma ListeningJoin(line: string, i: nat, a: nat, b: nat, c: nat, d: nat, start: string, cycle: string, duration: string)
    requires LiteralAt(line, i, LISTENING_PREFIX) && a == i + |LISTENING_PREFIX|
    requires LiteralAt(line, a, start + "|") && b == a + |start| + 1
    requires LiteralAt(line, b, cycle + "|") && c == b + |cycle| + 1
    requires LiteralAt(line, c, duration + "|") && d == c + |duration| + 1
    ensures LiteralAt(line, i, LISTENING_PREFIX + start + "|" + cycle + "|" + duration + "|")
  {
    SliceExtend(line, i, a, b, LISTENING_PREFIX, start + "|");
    SliceExtend(line, i, b, c, LISTENING_PREFIX + (start + "|"), cycle + "|");
    SliceExtend(line, i, c, d, LISTENING_PREFIX + (start + "|") + (cycle + "|"), duration + "|");
    assert LISTENING_PREFIX + (start + "|") + (cycle + "|") + (duration + "|")
        == LISTENING_PREFIX + start + "|" + cycle + "|" + duration + "|";
  }

  /** What the listening recogniser captures are three digit words, as they stand in the line after the prefix. */
  lemma ListeningRecogniserSound(line: string, g: Groups)
    requires Leftmost(ListeningPattern, line) == Some(g)
    ensures g.ListeningGroups?
    ensures |g.start| > 0 && AllIn(g.start, Digit) && |g.cycle| > 0 && AllIn(g.cycle, Digit)
    ensures |g.duration| > 0 && AllIn(g.duration, Digit)
    ensures Contains(line, LISTENING_PREFIX + g.start + "|" + g.cycle + "|" + g.duration + "|")
  {
    var i := MatchPosition(ListeningPattern, line, 0).value;
    ListeningAtSpells(line, i, g);
    ContainsAt(line, LISTENING_PREFIX + g.start + "|" + g.cycle + "|" + g.duration + "|", i);
  }

  /** A short-version match at `i` spells `v`, a word, a dot and a word, from `i` on. */
  lemma VersionShortAtSpells(line: string, i: nat)
    requires i <= |line| && VersionShortAt(line, i).Some?
    ensures exists major, minor :: |major| > 0 && AllIn(major, Word) && |minor| > 0 && AllIn(minor, Word)
                                   && LiteralAt(line, i, "v" + major + "." + minor)
  {
    var n := RunLength(line, i + 1, Word);
    var k := i + 2 + n;
    VersionShortAtParts(line, i, n, k);
    var m := RunLength(line, k, Word);
    var major, minor := line[i + 1..i + 1 + n], line[k..k + m];
    VersionJoin(line, i, n, k, major, minor);
    assert |major| > 0 && AllIn(major, Word) && |minor| > 0 && AllIn(minor, Word)
           && LiteralAt(line, i, "v" + major + "." + minor);
  }

  /** The pieces a short-version match consists of: `v`, a word run of length `n`, a dot, a word run at `k`. */
  lemma VersionShortAtParts(line: string, i: nat, n: nat, k: nat)
    requires i <= |line| && VersionShortAt(line, i).Some?
    requires n == RunLength(line, i + 1, Word) && k == i + 2 + n
    ensures k <= |line| && n > 0 && RunLength(line, k, Word) > 0
    ensures LiteralAt(line, i, "v") && LiteralAt(line, i + 1 + n, ".")
    ensures AllIn(line[i + 1..i + 1 + n], Word) && AllIn(line[k..k + RunLength(line, k, Word)], Word)
  {
    RunAllIn(line, i + 1, Word);
    RunAllIn(line, k, Word);
  }

  /** `v`, a word, a dot and a word, side by side, spell the short version. */
  lemma VersionJoin(line: string, i: nat, n: nat, k: nat, major: string, minor: string)
    requires LiteralAt(line, i, "v") && n == |major| && LiteralAt(line, i + 1, major) && LiteralAt(line, i + 1 + n, ".")
    requires k == i + 2 + n && LiteralAt(line, k, minor)
    ensures LiteralAt(line, i, "v" + major + "." + minor)
  {
    SliceExtend(line, i, i + 1, i + 1 + n, "v", major);
    SliceExtend(line, i, i + 1 + n, k, "v" + major, ".");
    SliceExtend(line, i, k, k + |minor|, "v" + major + ".", minor);
  }

  /** The short-version rule claims only lines holding `v`, a word, a dot and a word. */
  lemma VersionShortRecogniserSound(line: string)
    requires Leftmost(VersionShortPattern, line).Some?
    ensures exists major, minor :: |major| > 0 && AllIn(major, Word) && |minor| > 0 && AllIn(minor, Word)
                                   && Contains(line, "v" + major + "." + minor)
  {
    var i := MatchPosition(VersionShortPattern, line, 0).value;
    VersionShortAtSpells(line, i);
    var major, minor :| |major| > 0 && AllIn(major, Word) && |minor| > 0 && AllIn(minor, Word)
                        && LiteralAt(line, i, "v" + major + "." + minor);
    ContainsAt(line, "v" + major + "." + minor, i);
  }

  /** A DEVID line always reaches the first rule, which sets both ids together and nothing else. */
  lemma DevIdLineSetsBothIds(rec: Recognisers, line: string, id: string, altId: string, dev: DeviceModel, history: seq<string>)
    requires Leftmost(DevIdPattern, line) == Some(DevIdGroups(id, altId))
    ensures Dispatch(rec, LineRules, line, dev, history)
         == dev.(metadata := dev.metadata.(deviceId := Some(id), deviceAltId := Some(altId)))
  {
  }

  /** The literal text a line must hold before the pattern of `rule` can match it. */
  predicate HoldsMarker(rule: Rule, line: string) {
    match rule
    case DeviceId => Contains(line, DEVID_PREFIX)
    case VersionLong => Contains(line, "Version: ")
    case VersionTag => Contains(line, "_FW")
    case VersionShort => 'v' in line && '.' in line
    case StackMode => Contains(line, " - STACK MODE (")
    case ConfiguredMeter => 'M' in line && '=' in line
    case Time => Contains(line, "I=")
    case Listening => Contains(line, LISTENING_PREFIX)
    case Runmode => Contains(line, RUNMODE_PREFIX)
    case MbusEnabled => Contains(line, "Enabling MBUS")
    case MbusDisabled => Contains(line, "MBUS disabled")
    case RunmodeNormal => Contains(line, "@08>>")
    case RunmodeConfig => Contains(line, "@07>>")
    case RunmodeHibernate => Contains(line, "@04>>")
    case TransmitStart => Contains(line, "Sending")
    case TransmitEnd => Contains(line, " Transmission")
    case EmptyLine => Contains(line, " ")
    case RegisterPreDefinedPrompt => Contains(line, "@05")
  }

  /** With plausible recognisers, no rule claims a line that lacks its marker. */
  lemma ExecNeedsMarker(rec: Recognisers, rule: Rule, line: string)
    requires Plausible(rec)
    ensures Exec(rec, rule, line).Some? ==> HoldsMarker(rule, line)
  {
    match rule {
      case DeviceId => DevIdNeedsMarker(line);
      case VersionShort => VersionShortNeedsMarker(line);
      case ConfiguredMeter => MeterNeedsMarker(line);
      case Time => TimeNeedsMarker(line);
      case Listening =>
        if Exec(rec, rule, line).Some? {
          ContainsAt(line, LISTENING_PREFIX, MatchPosition(ListeningPattern, line, 0).value);
        }
      case Runmode => RunmodeNeedsMarker(line);
      case _ =>
    }
  }

  lemma DevIdNeedsMarker(line: string)
    ensures Leftmost(DevIdPattern, line).Some? ==> Contains(line, DEVID_PREFIX)
  {
    if Leftmost(DevIdPattern, line).Some? {
      ContainsAt(line, DEVID_PREFIX, MatchPosition(DevIdPattern, line, 0).value);
    }
  }

  lemma VersionShortNeedsMarker(line: string)
    ensures Leftmost(VersionShortPattern, line).Some? ==> 'v' in line && '.' in line
  {
    if Leftmost(VersionShortPattern, line).Some? {
      var k := MatchPosition(VersionShortPattern, line, 0).value;
      assert line[k] == 'v';
      var t :| 0 <= t < |line[k..]| && line[k..][t] == '.';
      assert line[k + t] == '.';
    }
  }

  lemma MeterNeedsMarker(line: string)
    ensures Leftmost(MeterPattern, line).Some? ==> 'M' in line && '=' in line
  {
    if Leftmost(MeterPattern, line).Some? {
      var k := MatchPosition(MeterPattern, line, 0).value;
      var g := MeterAt(line, k).value;
      MeterAtSpells(line, k, g);
      var text := "M" + g.index + "=" + g.meterId + "," + g.meterKey;
      var j := 1 + |g.index|;
      assert text[0] == 'M' && text[j] == '=';
      assert line[k] == 'M' && line[k + j] == '=';
    }
  }

  lemma TimeNeedsMarker(line: string)
    ensures Leftmost(TimePattern, line).Some? ==> Contains(line, "I=")
  {
    if Leftmost(TimePattern, line).Some? {
      var k := MatchPosition(TimePattern, line, 0).value;
      SliceSplit(line, k, "I=", TimeAt(line, k).value.minutesOfDay);
      ContainsAt(line, "I=", k);
    }
  }

  lemma RunmodeNeedsMarker(line: string)
    ensures Leftmost(RunmodePattern, line).Some? ==> Contains(line, RUNMODE_PREFIX)
  {
    if Leftmost(RunmodePattern, line).Some? {
      var k := MatchPosition(RunmodePattern, line, 0).value;
      SliceSplit(line, k, RUNMODE_PREFIX, RunmodeAt(line, k).value.runmode);
      ContainsAt(line, RUNMODE_PREFIX, k);
    }
  }

  /**
   * With plausible recognisers, a line that holds none of the markers of
   * the rules before rule `k` is handled by rule `k` when that rule matches.
   */
  lemma DispatchFirstMarker(rec: Recognisers, k: nat, g: Groups, line: string, dev: DeviceModel, history: seq<string>)
    requires Plausible(rec) && k < |LineRules|
    requires Exec(rec, LineRules[k], line) == Some(g)
    requires forall j :: 0 <= j < k ==> !HoldsMarker(LineRules[j], line)
    ensures Dispatch(rec, LineRules, line, dev, history) == Handle(LineRules[k], g, line, dev, history)
  {
    forall j | 0 <= j < k
      ensures Exec(rec, LineRules[j], line).None?
    {
      ExecNeedsMarker(rec, LineRules[j], line);
    }
    var m := FirstMatch(rec, LineRules, line, 0);
    assert m.Some?;
    assert m.value.0 == k;
  }

  /**
   * The markers of the rules before rule `k` that a line cannot hold, judged
   * by characters it lacks: `:` (DEVID, long version), `_` (tag, mode),
   * `v` (short version), `(` (stack mode), `=` (meter, time, listening
   * window), `E`, `M`, `8` and `7` (the bus and prompt markers).
   */
  lemma MarkersAbsent(line: string, k: nat)
    requires k <= 13 && ':' !in line && '_' !in line && 'v' !in line && '(' !in line
    requires k > 5 ==> '=' !in line
    requires k > 9 ==> 'E' !in line
    requires k > 10 ==> 'M' !in line
    requires k > 11 ==> '8' !in line
    requires k > 12 ==> '7' !in line
    ensures forall j :: 0 <= j < k ==> !HoldsMarker(LineRules[j], line)
  {
    forall j | 0 <= j < k
      ensures !HoldsMarker(LineRules[j], line)
    {
      if j == 0 { ContainsChar(line, DEVID_PREFIX, ':'); }
      else if j == 1 { ContainsChar(line, "Version: ", ':'); }
      else if j == 2 { ContainsChar(line, "_FW", '_'); }
      else if j == 3 {}
      else if j == 4 { ContainsChar(line, " - STACK MODE (", '('); }
      else if j == 5 {}
      else if j == 6 { ContainsChar(line, "I=", '='); }
      else if j == 7 { ContainsChar(line, LISTENING_PREFIX, '='); }
      else if j == 8 { ContainsChar(line, RUNMODE_PREFIX, '_'); }
      else if j == 9 { ContainsChar(line, "Enabling MBUS", 'E'); }
      else if j == 10 { ContainsChar(line, "MBUS disabled", 'M'); }
      else if j == 11 { ContainsChar(line, "@08>>", '8'); }
      else { ContainsChar(line, "@07>>", '7'); }
    }
  }

  /** A configured-meter line as the device prints it. */
  function MeterLine(index: string, meterId: string, meterKey: string): string {
    "M" + index + "=" + meterId + "," + meterKey
  }

  /** A meter line holds none of the markers of the five rules before the meter rule. */
  lemma MeterLineMarkers(index: string, meterId: string, meterKey: string)
    requires AllIn(index, Digit) && AllIn(meterId, UpperHex) && AllIn(meterKey, UpperHex)
    ensures forall j :: 0 <= j < 5 ==> !HoldsMarker(LineRules[j], MeterLine(index, meterId, meterKey))
  {
    MeterLineLacks(index, meterId, meterKey, ':');
    MeterLineLacks(index, meterId, meterKey, '_');
    MeterLineLacks(index, meterId, meterKey, 'v');
    MeterLineLacks(index, meterId, meterKey, '(');
    MarkersAbsent(MeterLine(index, meterId, meterKey), 5);
  }

  /** A meter line is made of `M`, `=`, `,` and hexadecimal digits only. */
  lemma MeterLineLacks(index: string, meterId: string, meterKey: string, c: char)
    requires AllIn(index, Digit) && AllIn(meterId, UpperHex) && AllIn(meterKey, UpperHex)
    requires c != 'M' && c != '=' && c != ',' && !InClass(c, UpperHex)
    ensures c !in MeterLine(index, meterId, meterKey)
  {
    NotInWord(index, Digit, c);
    NotInWord(meterId, UpperHex, c);
    NotInWord(meterKey, UpperHex, c);
  }

  /** The meter pattern finds a whole meter line, with exactly its index, id and key. */
  lemma MeterLineRecognised(index: string, meterId: string, meterKey: string)
    requires |index| > 0 && AllIn(index, Digit)
    requires |meterId| > 0 && AllIn(meterId, UpperHex) && |meterKey| > 0 && AllIn(meterKey, UpperHex)
    ensures Leftmost(MeterPattern, MeterLine(index, meterId, meterKey)) == Some(MeterGroups(index, meterId, meterKey))
  {
    var line := MeterLine(index, meterId, meterKey);
    assert line[0..|line|] == line;
    MeterAtComplete(line, 0, index, meterId, meterKey);
    assert MatchPosition(MeterPattern, line, 0) == Some(0);
  }

  /**
   * With plausible recognisers, a meter line reaches the configured-meter
   * rule with its own index, id and key: no earlier rule can claim it.
   */
  lemma MeterLineDispatch(rec: Recognisers, index: string, meterId: string, meterKey: string, dev: DeviceModel, history: seq<string>)
    requires Plausible(rec)
    requires |index| > 0 && AllIn(index, Digit)
    requires |meterId| > 0 && AllIn(meterId, UpperHex) && |meterKey| > 0 && AllIn(meterKey, UpperHex)
    ensures Dispatch(rec, LineRules, MeterLine(index, meterId, meterKey), dev, history)
         == Handle(ConfiguredMeter, MeterGroups(index, meterId, meterKey), MeterLine(index, meterId, meterKey), dev, history)
  {
    var line, g := MeterLine(index, meterId, meterKey), MeterGroups(index, meterId, meterKey);
    LineRulesOrder();
    MeterLineRecognised(index, meterId, meterKey);
    MeterLineMarkers(index, meterId, meterKey);
    DispatchFirstMarker(rec, 5, g, line, dev, history);
  }

  /** Two complete lines in a row: the second is dispatched against the model and history the first left. */
  lemma TwoSteps(rec: Recognisers, line1: string, line2: string, dev: DeviceModel, history: seq<string>)
    ensures Steps(rec, [line1, line2], dev, history)
         == LineStep(rec, line2, Dispatch(rec, LineRules, line1, dev, history), Recent(line1, history))
  {
    var first := Steps(rec, [line1], dev, history);
    assert first == LineStep(rec, line1, dev, history) by {
      assert [line1][..0] == [] && [line1][0] == line1;
      assert Steps(rec, [], dev, history) == (dev, history);
    }
    assert [line1, line2][..1] == [line1];
    assert Steps(rec, [line1, line2], dev, history) == LineStep(rec, line2, first.0, first.1);
  }

  /** Two meter lines for the same slot, one after the other: the slot holds the later id and key. */
  lemma MeterLinesLastWriteWins(rec: Recognisers, index1: string, id1: string, key1: string,
                                index2: string, id2: string, key2: string, dev: DeviceModel, history: seq<string>)
    requires Plausible(rec)
    requires |index1| > 0 && AllIn(index1, Digit) && |index2| > 0 && AllIn(index2, Digit)
    requires |id1| > 0 && AllIn(id1, UpperHex) && |key1| > 0 && AllIn(key1, UpperHex)
    requires |id2| > 0 && AllIn(id2, UpperHex) && |key2| > 0 && AllIn(key2, UpperHex)
    requires DecimalValue(index1) == DecimalValue(index2) <= MAX_SAFE_INTEGER
    ensures Steps(rec, [MeterLine(index1, id1, key1), MeterLine(index2, id2, key2)], dev, history).0.configuration.meters
         == dev.configuration.meters[DecimalValue(index1) := MeterConfig(id2, key2)]
  {
    var l1, l2 := MeterLine(index1, id1, key1), MeterLine(index2, id2, key2);
    TwoSteps(rec, l1, l2, dev, history);
    MeterLineDispatch(rec, index1, id1, key1, dev, history);
    var mid := Dispatch(rec, LineRules, l1, dev, history);
    MeterLineDispatch(rec, index2, id2, key2, mid, Recent(l1, history));
    MeterLastWriteWins(MeterGroups(index1, id1, key1), MeterGroups(index2, id2, key2), l1, l2, dev, history, Recent(l1, history));
  }

  /**
   * `M03=AABBCCDD,00112233445566778899AABBCCDDEEFF` followed by
   * `M03=AABBCCDD,FFEEDDCCBBAA998877665544332211`: slot 3 holds the second key.
   */
  lemma MeterSlotExample(rec: Recognisers, dev: DeviceModel, history: seq<string>)
    requires Plausible(rec)
    ensures Steps(rec, [MeterLine("03", "AABBCCDD", "00112233445566778899AABBCCDDEEFF"),
                        MeterLine("03", "AABBCCDD", "FFEEDDCCBBAA998877665544332211")], dev, history).0.configuration.meters
         == dev.configuration.meters[3 := MeterConfig("AABBCCDD", "FFEEDDCCBBAA998877665544332211")]
  {
    MeterSlotExampleWords();
    MeterLinesLastWriteWins(rec, "03", "AABBCCDD", "00112233445566778899AABBCCDDEEFF",
                            "03", "AABBCCDD", "FFEEDDCCBBAA998877665544332211", dev, history);
  }

  lemma MeterSlotExampleWords()
    ensures AllIn("03", Digit) && DecimalValue("03") == 3
    ensures AllIn("AABBCCDD", UpperHex)
    ensures AllIn("00112233445566778899AABBCCDDEEFF", UpperHex)
    ensures AllIn("FFEEDDCCBBAA998877665544332211", UpperHex)
  {
    LeadingZeroIgnored("3");
    assert DecimalValue("3") == 3;
  }

  /** `DEVID: A1B2C3, 8988228001122334455` sets the id to `A1B2C3` and the alternate id to the second word. */
  lemma DevIdExample(rec: Recognisers, dev: DeviceModel, history: seq<string>)
    ensures Dispatch(rec, LineRules, "DEVID: A1B2C3, 8988228001122334455", dev, history)
         == dev.(metadata := dev.metadata.(deviceId := Some("A1B2C3"), deviceAltId := Some("8988228001122334455")))
  {
    var line := "DEVID: A1B2C3, 8988228001122334455";
    DevIdExampleWords();
    DevIdExampleText();
    DevIdAtComplete(line, 0, "A1B2C3", "8988228001122334455");
    assert Leftmost(DevIdPattern, line) == DevIdAt(line, 0);
    DevIdLineSetsBothIds(rec, line, "A1B2C3", "8988228001122334455", dev, history);
  }

  lemma DevIdExampleWords()
    ensures AllIn("A1B2C3", UpperHex) && AllIn("8988228001122334455", UpperHex)
  {
  }

  lemma DevIdExampleText()
    ensures var line := "DEVID: A1B2C3, 8988228001122334455";
            var text := DEVID_PREFIX + "A1B2C3" + ", " + "8988228001122334455";
            LiteralAt(line, 0, text) && |text| == |line|
  {
    var line := "DEVID: A1B2C3, 8988228001122334455";
    assert line == DEVID_PREFIX + "A1B2C3" + ", " + "8988228001122334455";
    assert line[0..|line|] == line;
  }

  /** With plausible recognisers, `Enabling MBUS` reaches its own rule and switches the bus on. */
  lemma MbusEnabledLine(rec: Recognisers, dev: DeviceModel, history: seq<string>)
    requires Plausible(rec)
    ensures Dispatch(rec, LineRules, "Enabling MBUS", dev, history) == dev.(state := dev.state.(mbusEnabled := true))
  {
    var line := "Enabling MBUS";
    MbusEnabledUnmarked();
    ContainsAt(line, line, 0);
    MbusEnabledRule(rec, line, dev, history);
  }

  /**
   * With plausible recognisers, any line holding `Enabling MBUS` and none of the
   * markers of the 9 rules before it is handled by its rule: `Enabling MBUS` switches the bus on.
   */
  lemma MbusEnabledRule(rec: Recognisers, line: string, dev: DeviceModel, history: seq<string>)
    requires Plausible(rec) && Contains(line, "Enabling MBUS")
    requires forall j :: 0 <= j < 9 ==> !HoldsMarker(LineRules[j], line)
    ensures Dispatch(rec, LineRules, line, dev, history) == dev.(state := dev.state.(mbusEnabled := true))
  {
    LineRulesOrder();
    DispatchFirstMarker(rec, 9, NoGroups, line, dev, history);
  }

  lemma MbusEnabledUnmarked()
    ensures forall j :: 0 <= j < 9 ==> !HoldsMarker(LineRules[j], "Enabling MBUS")
  {
    MarkersAbsent("Enabling MBUS", 9);
  }

  /** With plausible recognisers, `MBUS disabled` reaches its own rule and switches the bus off. */
  lemma MbusDisabledLine(rec: Recognisers, dev: DeviceModel, history: seq<string>)
    requires Plausible(rec)
    ensures Dispatch(rec, LineRules, "MBUS disabled", dev, history) == dev.(state := dev.state.(mbusEnabled := false))
  {
    var line := "MBUS disabled";
    MbusDisabledUnmarked();
    ContainsAt(line, line, 0);
    MbusDisabledRule(rec, line, dev, history);
  }

  /**
   * With plausible recognisers, any line holding `MBUS disabled` and none of the
   * markers of the 10 rules before it is handled by its rule: `MBUS disabled` switches the bus off.
   */
  lemma MbusDisabledRule(rec: Recognisers, line: string, dev: DeviceModel, history: seq<string>)
    requires Plausible(rec) && Contains(line, "MBUS disabled")
    requires forall j :: 0 <= j < 10 ==> !HoldsMarker(LineRules[j], line)
    ensures Dispatch(rec, LineRules, line, dev, history) == dev.(state := dev.state.(mbusEnabled := false))
  {
    LineRulesOrder();
    DispatchFirstMarker(rec, 10, NoGroups, line, dev, history);
  }

  lemma MbusDisabledUnmarked()
    ensures forall j :: 0 <= j < 10 ==> !HoldsMarker(LineRules[j], "MBUS disabled")
  {
    MarkersAbsent("MBUS disabled", 10);
  }

  /** With plausible recognisers, the `@08>>` prompt reaches its own rule and sets the mode to `NORMAL`. */
  lemma RunmodeNormalLine(rec: Recognisers, dev: DeviceModel, history: seq<string>)
    requires Plausible(rec)
    ensures Dispatch(rec, LineRules, "@08>>", dev, history) == dev.(state := dev.state.(runmode := Some("NORMAL")))
  {
    var line := "@08>>";
    RunmodeNormalUnmarked();
    ContainsAt(line, line, 0);
    RunmodeNormalRule(rec, line, dev, history);
  }

  /**
   * With plausible recognisers, any line holding `@08>>` and none of the
   * markers of the 11 rules before it is handled by its rule: the `@08>>` prompt sets the mode to `NORMAL`.
   */
  lemma RunmodeNormalRule(rec: Recognisers, line: string, dev: DeviceModel, history: seq<string>)
    requires Plausible(rec) && Contains(line, "@08>>")
    requires forall j :: 0 <= j < 11 ==> !HoldsMarker(LineRules[j], line)
    ensures Dispatch(rec, LineRules, line, dev, history) == dev.(state := dev.state.(runmode := Some("NORMAL")))
  {
    LineRulesOrder();
    DispatchFirstMarker(rec, 11, NoGroups, line, dev, history);
  }

  lemma RunmodeNormalUnmarked()
    ensures forall j :: 0 <= j < 11 ==> !HoldsMarker(LineRules[j], "@08>>")
  {
    MarkersAbsent("@08>>", 11);
  }

  /** With plausible recognisers, the `@07>>` prompt reaches its own rule and sets the mode to `CONFIG`. */
  lemma RunmodeConfigLine(rec: Recognisers, dev: DeviceModel, history: seq<string>)
    requires Plausible(rec)
    ensures Dispatch(rec, LineRules, "@07>>", dev, history) == dev.(state := dev.state.(runmode := Some("CONFIG")))
  {
    var line := "@07>>";
    RunmodeConfigUnmarked();
    ContainsAt(line, line, 0);
    RunmodeConfigRule(rec, line, dev, history);
  }

  /**
   * With plausible recognisers, any line holding `@07>>` and none of the
   * markers of the 12 rules before it is handled by its rule: the `@07>>` prompt sets the mode to `CONFIG`.
   */
  lemma RunmodeConfigRule(rec: Recognisers, line: string, dev: DeviceModel, history: seq<string>)
    requires Plausible(rec) && Contains(line, "@07>>")
    requires forall j :: 0 <= j < 12 ==> !HoldsMarker(LineRules[j], line)
    ensures Dispatch(rec, LineRules, line, dev, history) == dev.(state := dev.state.(runmode := Some("CONFIG")))
  {
    LineRulesOrder();
    DispatchFirstMarker(rec, 12, NoGroups, line, dev, history);
  }

  lemma RunmodeConfigUnmarked()
    ensures forall j :: 0 <= j < 12 ==> !HoldsMarker(LineRules[j], "@07>>")
  {
    MarkersAbsent("@07>>", 12);
  }

  /** With plausible recognisers, the `@04>>` prompt reaches its own rule, which changes nothing. */
  lemma RunmodeHibernateLine(rec: Recognisers, dev: DeviceModel, history: seq<string>)
    requires Plausible(rec)
    ensures Dispatch(rec, LineRules, "@04>>", dev, history) == dev
  {
    var line := "@04>>";
    RunmodeHibernateUnmarked();
    ContainsAt(line, line, 0);
    RunmodeHibernateRule(rec, line, dev, history);
  }

  /**
   * With plausible recognisers, any line holding `@04>>` and none of the
   * markers of the 13 rules before it is handled by its rule: the `@04>>` prompt changes nothing.
   */
  lemma RunmodeHibernateRule(rec: Recognisers, line: string, dev: DeviceModel, history: seq<string>)
    requires Plausible(rec) && Contains(line, "@04>>")
    requires forall j :: 0 <= j < 13 ==> !HoldsMarker(LineRules[j], line)
    ensures Dispatch(rec, LineRules, line, dev, history) == dev
  {
    LineRulesOrder();
    DispatchFirstMarker(rec, 13, NoGroups, line, dev, history);
  }

  lemma RunmodeHibernateUnmarked()
    ensures forall j :: 0 <= j < 13 ==> !HoldsMarker(LineRules[j], "@04>>")
  {
    MarkersAbsent("@04>>", 13);
  }

  /** The fields of the device model, for stating what a handler may write. */
  datatype Field =
    | DeviceIdField | DeviceAltIdField | VersionLongField | VersionTagField | VersionShortField
    | ModemTypeField | StackModeField | MeterTypeField | MetersField | TimeField
    | ListeningStartField | ListeningCycleField | ListeningDurationField
    | RunmodeField | MbusEnabledField | TransmittingField

  predicate SameField(a: DeviceModel, b: DeviceModel, f: Field) {
    match f
    case DeviceIdField => a.metadata.deviceId == b.metadata.deviceId
    case DeviceAltIdField => a.metadata.deviceAltId == b.metadata.deviceAltId
    case VersionLongField => a.metadata.versionLong == b.metadata.versionLong
    case VersionTagField => a.metadata.versionTag == b.metadata.versionTag
    case VersionShortField => a.metadata.versionShort == b.metadata.versionShort
    case ModemTypeField => a.metadata.lpwanModemType == b.metadata.lpwanModemType
    case StackModeField => a.configuration.stackMode == b.configuration.stackMode
    case MeterTypeField => a.configuration.meterType == b.configuration.meterType
    case MetersField => a.configuration.meters == b.configuration.meters
    case TimeField => a.configuration.time == b.configuration.time
    case ListeningStartField => a.configuration.listeningStart == b.configuration.listeningStart
    case ListeningCycleField => a.configuration.listeningCycle == b.configuration.listeningCycle
    case ListeningDurationField => a.configuration.listeningDuration == b.configuration.listeningDuration
    case RunmodeField => a.state.runmode == b.state.runmode
    case MbusEnabledField => a.state.mbusEnabled == b.state.mbusEnabled
    case TransmittingField => a.state.transmitting == b.state.transmitting
  }

  /** The fields each rule's handler is allowed to write. */
  function Writes(rule: Rule): set<Field> {
    match rule
    case DeviceId => {DeviceIdField, DeviceAltIdField}
    case VersionLong => {VersionLongField, MeterTypeField}
    case VersionTag => {ModemTypeField, VersionTagField}
    case VersionShort => {VersionShortField}
    case StackMode => {StackModeField}
    case ConfiguredMeter => {MetersField}
    case Time => {TimeField}
    case Listening => {ListeningStartField, ListeningCycleField, ListeningDurationField}
    case Runmode => {RunmodeField}
    case MbusEnabled => {MbusEnabledField}
    case MbusDisabled => {MbusEnabledField}
    case RunmodeNormal => {RunmodeField}
    case RunmodeConfig => {RunmodeField}
    case RunmodeHibernate => {}
    case TransmitStart => {TransmittingField}
    case TransmitEnd => {TransmittingField}
    case EmptyLine => {MetersField}
    case RegisterPreDefinedPrompt => {}
  }

  /** Every handler leaves every field outside its own write set untouched. */
  lemma HandlerWritesOnlyItsFields(rule: Rule, g: Groups, line: string, dev: DeviceModel, history: seq<string>)
    ensures forall f :: f !in Writes(rule) ==> SameField(Handle(rule, g, line, dev, history), dev, f)
  {
  }

  /**
   * The structured handlers set their fields together, from the captures;
   * the version rules store the whole line rather than the match.
   */
  lemma StructuredHandlersSetTheirFields(rule: Rule, g: Groups, line: string, dev: DeviceModel, history: seq<string>)
    ensures var r := Handle(rule, g, line, dev, history);
      && (rule == DeviceId && g.DevIdGroups? ==>
            r.metadata.deviceId == Some(g.id) && r.metadata.deviceAltId == Some(g.altId))
      && (rule == VersionLong && g.MeterTypeGroup? ==>
            r.metadata.versionLong == Some(line) && r.configuration.meterType == Some(g.meterType))
      && (rule == VersionTag && g.ModemTypeGroup? ==>
            r.metadata.versionTag == Some(line) && r.metadata.lpwanModemType == Some(g.modemType))
      && (rule == VersionShort ==> r.metadata.versionShort == Some(line))
      && (rule == Time && g.MinutesGroup? ==> r.configuration.time == Some(DecimalValue(g.minutesOfDay)))
      && (rule == Listening && g.ListeningGroups? ==>
            && r.configuration.listeningStart == Some(DecimalValue(g.start))
            && r.configuration.listeningCycle == Some(DecimalValue(g.cycle))
            && r.configuration.listeningDuration == Some(DecimalValue(g.duration)))
  {
  }

  /** The runtime-state rules: mode markers, transmission start and end, bus enable and disable. */
  lemma RuntimeHandlersSetState(rule: Rule, g: Groups, line: string, dev: DeviceModel, history: seq<string>)
    ensures var r := Handle(rule, g, line, dev, history);
      && (rule == RunmodeNormal ==> r.state.runmode == Some("NORMAL"))
      && (rule == RunmodeConfig ==> r.state.runmode == Some("CONFIG"))
      && (rule == RunmodeHibernate ==> r == dev)
      && (rule == Runmode && g.RunmodeGroup? ==> r.state.runmode == Some(g.runmode))
      && (rule == TransmitStart && g.MessageTypeGroup? ==> r.state.transmitting == Some(g.messageType))
      && (rule == TransmitEnd ==> r.state.transmitting.None?)
      && (rule == MbusEnabled ==> r.state.mbusEnabled)
      && (rule == MbusDisabled ==> !r.state.mbusEnabled)
  {
  }

  /** The partial-line table changes nothing, whatever the line. */
  lemma PartialLineChangesNothing(rec: Recognisers, line: string, dev: DeviceModel, history: seq<string>)
    ensures Dispatch(rec, PartialLineRules, line, dev, history) == dev
  {
  }

  // ---------------------------------------------------------------------
  // The engine: the three records and the line history as mutable state
  // ---------------------------------------------------------------------

  class SerialEngine {
    const recognisers: Recognisers
    var currentDeviceMetadata: DeviceMetadata
    var currentDeviceConfiguration: DeviceConfiguration
    var currentDeviceState: DeviceState
    var recentLineHistory: seq<string>

    function Model(): DeviceModel
      reads this
    {
      DeviceModel(currentDeviceMetadata, currentDeviceConfiguration, currentDeviceState)
    }

    /** `useJellyfishBridgeSerial()`: a fresh model and an empty history. */
    constructor (recognisers: Recognisers)
      ensures IsUnobserved(Model()) && recentLineHistory == []
      ensures this.recognisers == recognisers
    {
      this.recognisers := recognisers;
      currentDeviceMetadata := NewDeviceMetadata();
      currentDeviceConfiguration := NewDeviceConfiguration();
      currentDeviceState := NewDeviceState();
      recentLineHistory := [];
    }

    /** The `onMatch` handler of `rule`, updating the records in place. */
    method OnMatch(rule: Rule, line: string, groups: Groups)
      modifies this
      ensures recentLineHistory == old(recentLineHistory)
      ensures Model() == Handle(rule, groups, line, old(Model()), old(recentLineHistory))
    {
      match rule {
        case DeviceId =>
          if groups.DevIdGroups? {
            currentDeviceMetadata := currentDeviceMetadata.(deviceId := Some(groups.id));
            currentDeviceMetadata := currentDeviceMetadata.(deviceAltId := Some(groups.altId));
          }
        case VersionLong =>
          if groups.MeterTypeGroup? {
            currentDeviceMetadata := currentDeviceMetadata.(versionLong := Some(line));
            currentDeviceConfiguration := currentDeviceConfiguration.(meterType := Some(groups.meterType));
          }
        case VersionTag =>
          if groups.ModemTypeGroup? {
            currentDeviceMetadata := currentDeviceMetadata.(lpwanModemType := Some(groups.modemType));
            currentDeviceMetadata := currentDeviceMetadata.(versionTag := Some(line));
          }
        case VersionShort =>
          currentDeviceMetadata := currentDeviceMetadata.(versionShort := Some(line));
        case StackMode =>
          if groups.StackModeGroup? {
            currentDeviceConfiguration := currentDeviceConfiguration.(stackMode := Some(groups.stackMode));
          }
        case ConfiguredMeter =>
          if groups.MeterGroups? {
            var meterConfiguration := MeterConfig(groups.meterId, groups.meterKey);
            var index := DecimalValue(groups.index);
            if index <= MAX_SAFE_INTEGER {
              var meters := currentDeviceConfiguration.meters;
              currentDeviceConfiguration := currentDeviceConfiguration.(meters := meters[index := meterConfiguration]);
            }
          }
        case Time =>
          if groups.MinutesGroup? {
            currentDeviceConfiguration := currentDeviceConfiguration.(time := Some(DecimalValue(groups.minutesOfDay)));
          }
        case Listening =>
          if groups.ListeningGroups? {
            currentDeviceConfiguration := currentDeviceConfiguration.(listeningStart := Some(DecimalValue(groups.start)));
            currentDeviceConfiguration := currentDeviceConfiguration.(listeningCycle := Some(DecimalValue(groups.cycle)));
            currentDeviceConfiguration := currentDeviceConfiguration.(listeningDuration := Some(DecimalValue(groups.duration)));
          }
        case Runmode =>
          if groups.RunmodeGroup? {
            currentDeviceState := currentDeviceState.(runmode := Some(groups.runmode));
          }
        case MbusEnabled =>
          currentDeviceState := currentDeviceState.(mbusEnabled := true);
        case MbusDisabled =>
          currentDeviceState := currentDeviceState.(mbusEnabled := false);
        case RunmodeNormal =>
          currentDeviceState := currentDeviceState.(runmode := Some("NORMAL"));
        case RunmodeConfig =>
          currentDeviceState := currentDeviceState.(runmode := Some("CONFIG"));
        case RunmodeHibernate =>
        case TransmitStart =>
          if groups.MessageTypeGroup? {
            currentDeviceState := currentDeviceState.(transmitting := Some(groups.messageType));
          }
        case TransmitEnd =>
          currentDeviceState := currentDeviceState.(transmitting := None);
        case EmptyLine =>
          if |recentLineHistory| > 1 && Contains(recentLineHistory[1], METER_LIST_HEADER) {
            currentDeviceConfiguration := currentDeviceConfiguration.(meters := map[]);
          }
        case RegisterPreDefinedPrompt =>
      }
    }

    /** `matchLine`: walk the table in order, run the first matching handler, stop. */
    method MatchLine(line: string, table: seq<Rule>)
      modifies this
      ensures recentLineHistory == old(recentLineHistory)
      ensures Model() == Dispatch(recognisers, table, line, old(Model()), old(recentLineHistory))
    {
      for k := 0 to |table|
        invariant Model() == old(Model()) && recentLineHistory == old(recentLineHistory)
        invariant forall j :: 0 <= j < k ==> Exec(recognisers, table[j], line).None?
      {
        var m := Exec(recognisers, table[k], line);
        if m.Some? {
          OnMatch(table[k], line, m.value);
          break;
        }
      }
    }

    /** `updateRecentLineHistory`: `unshift` the line, then cut the history to three entries. */
    method UpdateRecentLineHistory(line: string)
      modifies this
      ensures Model() == old(Model())
      ensures recentLineHistory == Recent(line, old(recentLineHistory))
      ensures |recentLineHistory| <= RECENT_HISTORY_LENGTH
    {
      recentLineHistory := [line] + recentLineHistory;
      if |recentLineHistory| > RECENT_HISTORY_LENGTH {
        recentLineHistory := recentLineHistory[..RECENT_HISTORY_LENGTH];
      }
    }

    /** `serialLineCallback`: dispatch first, record the line in the history second. */
    method SerialLineCallback(line: string)
      modifies this
      ensures |recentLineHistory| <= RECENT_HISTORY_LENGTH
      ensures (Model(), recentLineHistory) == LineStep(recognisers, line, old(Model()), old(recentLineHistory))
    {
      MatchLine(line, LineRules);
      UpdateRecentLineHistory(line);
    }

    /** `serialPartialLineCallback`: a partial line changes neither the model nor the history. */
    method SerialPartialLineCallback(partialLine: string)
      modifies this
      ensures Model() == old(Model()) && recentLineHistory == old(recentLineHistory)
    {
      MatchLine(partialLine, PartialLineRules);
    }
  }
}
