# Jellyfish configurator core, modelled in Dafny

This project models four pieces of sequential logic in the Jellyfish configurator, a desktop application that configures and flashes Jellyfish bridge devices.

- **Telemetry line dispatcher** (`bridge_serial.dfy`, module `JellyfishBridgeSerial`). The device prints telemetry lines over a serial link.
  - An ordered table of seventeen line rules decides what each line means. The first rule whose pattern matches runs its handler, and no later rule is tried.
  - Handlers update three records of the device model: metadata, configuration with its meter map, and runtime state.
  - A history of the three most recent lines lets the last, catch-all rule notice an empty "Configured Meter List:".
  - Partial lines go through a one-rule table whose handler does nothing.
  - The engine is a class whose methods update those records in place. Its methods are proved against the functions `Dispatch`, `Recent` and `LineStep`.
- **Spreadsheet import** (`configuration_import.dfy`, module `ConfigurationImport`).
  - Fuzzy header matching.
  - Splitting of the location and `config` cells.
  - The row loop. A complete row starts a configuration, and an asset-only row extends the latest one.
  - `applyConfiguration` and `clearConfig` on the import state.
  - After an import, the available and imported lists are one shared array, so a splice made through one is seen through the other.
- **Flasher backend** (`flasher.dfy`, module `Flasher`).
  - The six-line BSL scripter script.
  - The loop over the scripter's output events, with its counter of consecutive ACK errors.
  - The choice of the event reported to the frontend.
  - The `bsl_flasher_running` lock.
  - The `flash` command, with the steps it cannot see given as parameters.
- **Flash outcome in the frontend** (`bsl_flasher.dfy`, module `BslFlasher`).
  - Backend events and exit code 1000 are mapped to a finish reason.
  - Each reason drives the `flashing` flag, the progress modal and the finished callback.

`common.dfy` holds `Option`, `Result` and `Unit`. `bridge_types.dfy` holds the device records. `text.dfy` holds the string operations the core relies on: `includes`, the regular expressions' character classes, `Number` on digit strings, ASCII case mapping, `trim`, `split(sep, 2)`, and lines of text.

## Model

| member | source | states |
|---|---|---|
| `JellyfishBridgeSerial.SerialEngine.constructor` | app/composables/JellyfishBridgeSerial.ts:5-39 | A fresh engine knows nothing: the six metadata fields and every configuration scalar are undefined, the meter map is empty, the M-Bus is off, nothing is being sent, and the history is empty |
| `JellyfishBridgeSerial.SerialEngine.OnMatch` | app/composables/JellyfishBridgeSerial.ts:43-243 | Running a rule's handler changes the three records exactly as `Handle` says and leaves the line history alone |
| `JellyfishBridgeSerial.SerialEngine.MatchLine` | app/composables/JellyfishBridgeSerial.ts:254-263 | The loop over the table leaves the model as `Dispatch` gives it: the handler of the first matching rule runs, then the loop stops |
| `JellyfishBridgeSerial.SerialEngine.UpdateRecentLineHistory` | app/composables/JellyfishBridgeSerial.ts:265-268 | The line is put in front, the history is cut to three entries, and the device model is unchanged |
| `JellyfishBridgeSerial.SerialEngine.SerialLineCallback` | app/composables/JellyfishBridgeSerial.ts:270-273 | The line is dispatched against the history as it was before the line, and only then recorded; the history stays at three entries or fewer |
| `JellyfishBridgeSerial.SerialEngine.SerialPartialLineCallback` | app/composables/JellyfishBridgeSerial.ts:275-277 | A partial line changes neither the device model nor the history |
| `JellyfishBridgeSerial.FirstMatch` | app/composables/JellyfishBridgeSerial.ts:255-261 | The rule found is one whose pattern matches, and every rule before it fails; nothing is found exactly when no rule matches |
| `JellyfishBridgeSerial.Dispatch` | app/composables/JellyfishBridgeSerial.ts:254-263 | A line that no rule matches leaves the device model unchanged |
| `JellyfishBridgeSerial.Recent` | app/composables/JellyfishBridgeSerial.ts:265-268 | The new history holds min(3, old length + 1) entries: the new line first, then the older lines in order |
| `JellyfishBridgeSerial.MatchPosition` | app/composables/JellyfishBridgeSerial.ts:256 | `exec` finds the leftmost position where the pattern matches: it matches there and nowhere before; no position is found only when the pattern matches nowhere |
| `JellyfishBridgeSerial.DevIdAt` | app/composables/JellyfishBridgeSerial.ts:45 | A `DEVID` match captures a non-empty id and alt id, both of `[A-F0-9]` characters only |
| `JellyfishBridgeSerial.MeterAt` | app/composables/JellyfishBridgeSerial.ts:116 | A meter match captures a non-empty digit index and a non-empty hexadecimal id and key |
| `JellyfishBridgeSerial.TimeAt` | app/composables/JellyfishBridgeSerial.ts:135 | An `I=` match captures a non-empty run of digits, and the line spells `I=` followed by it at the position |
| `JellyfishBridgeSerial.ListeningAt` | app/composables/JellyfishBridgeSerial.ts:146 | A listening match captures non-empty digit runs for start, cycle and duration, and the line spells the fixed prefix at the position (that the captures are the fields the line spells is `ListeningAtSpells`) |
| `JellyfishBridgeSerial.RunmodeAt` | app/composables/JellyfishBridgeSerial.ts:159 | An `OPM_` match captures a non-empty run of word characters, and the line spells ` - OPM_` followed by it at the position |
| `JellyfishBridgeSerial.VersionShortAt` | app/composables/JellyfishBridgeSerial.ts:88 | A `v\w+(?:\.\w+)+` match starts with `v` at the position and has a dot after it (that a word, a dot and a word follow the `v` is `VersionShortAtSpells`) |
| `JellyfishBridgeSerial.HexPairAt` | app/composables/JellyfishBridgeSerial.ts:45 | Two non-empty hexadecimal words joined by the separator stand at the position |
| `JellyfishBridgeSerial.DevIdAtComplete` | app/composables/JellyfishBridgeSerial.ts:45 | Conversely, wherever `DEVID: id, altId` stands with hexadecimal words, the pattern matches there with exactly that id, and with exactly that alt id when no hexadecimal digit follows it |
| `JellyfishBridgeSerial.MeterAtComplete` | app/composables/JellyfishBridgeSerial.ts:116 | Conversely, wherever `M<index>=<id>,<key>` stands, the pattern matches there with exactly that index and id, and exactly that key when no hexadecimal digit follows it |
| `JellyfishBridgeSerial.TimeAtComplete` | app/composables/JellyfishBridgeSerial.ts:135 | Conversely, wherever `I=` and digits stand, the pattern matches there, capturing all of those digits when no digit follows |
| `JellyfishBridgeSerial.ListeningAtComplete` | app/composables/JellyfishBridgeSerial.ts:146 | Conversely, wherever the listening line with three digit runs and its closing bar stands, the pattern matches there with exactly those three numbers |
| `JellyfishBridgeSerial.RunmodeAtComplete` | app/composables/JellyfishBridgeSerial.ts:159 | Conversely, wherever ` - OPM_` and a word stand, the pattern matches there, capturing the whole word when no word character follows |
| `JellyfishBridgeSerial.VersionShortAtComplete` | app/composables/JellyfishBridgeSerial.ts:88 | Conversely, wherever `v`, a word, a dot and a word stand, the pattern matches there |
| `JellyfishBridgeSerial.ExecNeedsMarker` | app/composables/JellyfishBridgeSerial.ts:43-243 | With plausible recognisers, a rule matches a line only when the line holds that rule's marker text or characters |
| `JellyfishBridgeSerial.DispatchFirstMarker` | app/composables/JellyfishBridgeSerial.ts:254-263 | When a rule matches and no earlier rule's marker is in the line, dispatching the line runs exactly that rule's handler with those captures |
| `JellyfishBridgeSerial.MeterLineRecognised` | app/composables/JellyfishBridgeSerial.ts:116 | The meter pattern finds a whole meter line at its start, with exactly its index, id and key |
| `JellyfishBridgeSerial.MeterLineDispatch` | app/composables/JellyfishBridgeSerial.ts:116-132 | A meter line reaches the configured-meter rule with its own captures: none of the earlier rules claims it |
| `JellyfishBridgeSerial.TwoSteps` | app/composables/JellyfishBridgeSerial.ts:270-273 | Two lines in a row: the second is dispatched against the model and the history the first one left |
| `JellyfishBridgeSerial.MeterLinesLastWriteWins` | app/composables/JellyfishBridgeSerial.ts:116-132 | Across two whole meter lines with the same index, the meter map ends with that slot holding the second line's id and key, and every other slot as before |
| `JellyfishBridgeSerial.MeterSlotExample` | app/composables/JellyfishBridgeSerial.ts:116-132 | `M03=AABBCCDD,0011…EEFF` then `M03=AABBCCDD,FFEE…2211`: slot 3 holds the second key |
| `JellyfishBridgeSerial.DevIdExample` | app/composables/JellyfishBridgeSerial.ts:45-54 | `DEVID: A1B2C3, 8988228001122334455` sets the id to `A1B2C3` and the alt id to `8988228001122334455`, and nothing else |
| `JellyfishBridgeSerial.MbusEnabledLine` | app/composables/JellyfishBridgeSerial.ts:177-181 | `Enabling MBUS` reaches its own rule and sets `mbusEnabled`, changing nothing else |
| `JellyfishBridgeSerial.MbusEnabledRule` | app/composables/JellyfishBridgeSerial.ts:177-181 | Any line holding `Enabling MBUS` and none of the nine earlier rules' markers reaches its rule and sets `mbusEnabled`, changing nothing else |
| `JellyfishBridgeSerial.MbusDisabledLine` | app/composables/JellyfishBridgeSerial.ts:182-187 | `MBUS disabled` reaches its own rule and clears `mbusEnabled`, changing nothing else |
| `JellyfishBridgeSerial.MbusDisabledRule` | app/composables/JellyfishBridgeSerial.ts:182-187 | Any line holding `MBUS disabled` and none of the ten earlier rules' markers reaches its rule and clears `mbusEnabled`, changing nothing else |
| `JellyfishBridgeSerial.RunmodeNormalLine` | app/composables/JellyfishBridgeSerial.ts:191-195 | `@08>>` reaches its own rule and sets the run mode to NORMAL, changing nothing else |
| `JellyfishBridgeSerial.RunmodeNormalRule` | app/composables/JellyfishBridgeSerial.ts:191-195 | Any line holding `@08>>` and none of the earlier rules' markers sets the run mode to NORMAL, changing nothing else |
| `JellyfishBridgeSerial.RunmodeConfigLine` | app/composables/JellyfishBridgeSerial.ts:197-201 | `@07>>` reaches its own rule and sets the run mode to CONFIG, changing nothing else |
| `JellyfishBridgeSerial.RunmodeConfigRule` | app/composables/JellyfishBridgeSerial.ts:197-201 | Any line holding `@07>>` and none of the earlier rules' markers sets the run mode to CONFIG, changing nothing else |
| `JellyfishBridgeSerial.RunmodeHibernateLine` | app/composables/JellyfishBridgeSerial.ts:204-208 | `@04>>` reaches its own rule, which leaves the model unchanged |
| `JellyfishBridgeSerial.RunmodeHibernateRule` | app/composables/JellyfishBridgeSerial.ts:204-208 | Any line holding `@04>>` and none of the earlier rules' markers reaches its rule, which leaves the model unchanged |
| `JellyfishBridgeSerial.DevIdAtSpells` | app/composables/JellyfishBridgeSerial.ts:45 | The text matched at the position spells `DEVID: ` + id + `, ` + altId |
| `JellyfishBridgeSerial.MeterAtSpells` | app/composables/JellyfishBridgeSerial.ts:116 | The text matched at the position spells `M` + index + `=` + id + `,` + key |
| `JellyfishBridgeSerial.DevIdRecogniserSound` | app/composables/JellyfishBridgeSerial.ts:45 | Whatever the `DEVID` rule captures comes from the line: the line contains `DEVID: id, altId`, with both ids hexadecimal and non-empty |
| `JellyfishBridgeSerial.MeterRecogniserSound` | app/composables/JellyfishBridgeSerial.ts:116 | Whatever the meter rule captures comes from the line: the line contains `M<index>=<id>,<key>`, with the index made of digits and the id and key hexadecimal |
| `JellyfishBridgeSerial.ListeningAtSpells` | app/composables/JellyfishBridgeSerial.ts:146 | The text matched at the position spells the listening prefix + start + `|` + cycle + `|` + duration + `|` |
| `JellyfishBridgeSerial.ListeningRecogniserSound` | app/composables/JellyfishBridgeSerial.ts:146 | Whatever the listening rule captures comes from the line: the line contains the prefix followed by the three captured numbers, each a non-empty digit run ended by a bar |
| `JellyfishBridgeSerial.VersionShortAtSpells` | app/composables/JellyfishBridgeSerial.ts:88 | The text matched at the position spells `v` + a non-empty word + `.` + a non-empty word |
| `JellyfishBridgeSerial.VersionShortRecogniserSound` | app/composables/JellyfishBridgeSerial.ts:88 | A line the short-version rule accepts contains `v`, a non-empty word, a dot and a non-empty word |
| `JellyfishBridgeSerial.EmptyLineIsLastCatchAll` | app/composables/JellyfishBridgeSerial.ts:233-242 | `emptyLine` is the seventeenth and last rule and appears nowhere earlier; it matches exactly the lines containing a space, so every such line is handled by some rule |
| `JellyfishBridgeSerial.EmptyLineOnlyWhenNoEarlierRule` | app/composables/JellyfishBridgeSerial.ts:254-263 | The catch-all handles a line if and only if the line has a space and none of the sixteen earlier rules matches it |
| `JellyfishBridgeSerial.EmptyLineClearsMetersAfterHeader` | app/composables/JellyfishBridgeSerial.ts:236-240 | On a line the catch-all handles, the meter map is emptied exactly when `recentLineHistory[1]` contains `Configured Meter List:`; nothing else changes |
| `JellyfishBridgeSerial.StepsHistory` | app/composables/JellyfishBridgeSerial.ts:270-273 | The history after a run of lines depends on the lines alone, not on what the handlers did |
| `JellyfishBridgeSerial.HistoryHoldsNewestLines` | app/composables/JellyfishBridgeSerial.ts:265-268 | After any run of lines the history holds min(3, lines + old entries) entries: the new lines newest first, then the old history's entries in their order |
| `JellyfishBridgeSerial.MeterListEmptiedTwoLinesAfterHeader` | app/composables/JellyfishBridgeSerial.ts:233-242 | Across whole calls: a catch-all line empties the meter map exactly when the line two before it contained the meter-list header |
| `JellyfishBridgeSerial.MeterLineWritesOneSlot` | app/composables/JellyfishBridgeSerial.ts:116-132 | A meter line sets slot `Number(index)` to `{id, key}` when the index is at most 2^53-1 and leaves the model untouched otherwise; every other slot keeps its presence and its value |
| `JellyfishBridgeSerial.MeterLastWriteWins` | app/composables/JellyfishBridgeSerial.ts:131 | Two meter lines with the same index: the second one's id and key are what the slot holds |
| `JellyfishBridgeSerial.MeterIndexLeadingZero` | app/composables/JellyfishBridgeSerial.ts:125 | `M03=` and `M3=` write the same slot with the same effect |
| `JellyfishBridgeSerial.DevIdLineSetsBothIds` | app/composables/JellyfishBridgeSerial.ts:45-54 | A line the `DEVID` pattern matches sets `deviceId` and `deviceAltId` together, from the captures, and changes nothing else |
| `JellyfishBridgeSerial.HandlerWritesOnlyItsFields` | app/composables/JellyfishBridgeSerial.ts:43-243 | Every handler leaves every field outside its own write set unchanged |
| `JellyfishBridgeSerial.StructuredHandlersSetTheirFields` | app/composables/JellyfishBridgeSerial.ts:45-157 | DEVID sets both ids. The listening line sets start, cycle and duration together. `I=` sets `time`. The version rules store the whole line, not the match, and take the meter type or modem type from the capture |
| `JellyfishBridgeSerial.RuntimeHandlersSetState` | app/composables/JellyfishBridgeSerial.ts:158-231 | `@08>>` sets NORMAL and `@07>>` sets CONFIG. `@04>>` changes nothing. `OPM_` sets the captured mode. A transmission start sets `transmitting` to the message type and its end resets it. The M-Bus messages set and clear `mbusEnabled` |
| `JellyfishBridgeSerial.PartialLineChangesNothing` | app/composables/JellyfishBridgeSerial.ts:245-252 | Dispatching any line against the partial-line table returns the device model unchanged |
| `Text.RunAllIn` | app/composables/JellyfishBridgeSerial.ts:116 | A greedy run `[cls]+` consumes only characters of its class |
| `Text.RunMaximal` | app/composables/JellyfishBridgeSerial.ts:116 | A greedy run cannot be extended: it ends the line or stops before a character outside its class |
| `Text.LeadingZeroIgnored` | app/composables/JellyfishBridgeSerial.ts:125 | `Number` of a digit string ignores a leading zero |
| `Text.IndexOf` | app/composables/configurationImport.ts:118 | The index returned holds the separator and no earlier index does; nothing is returned only when the separator is absent |
| `Text.SplitTwo` | app/composables/configurationImport.ts:105 | `split(sep, 2)`: the first part is the text before the first separator, and the second part, when present, runs to the next separator or the end |
| `Text.TrimStart` | app/composables/configurationImport.ts:119 | The result is a suffix of the input; everything dropped is white space, and the result does not start with white space |
| `Text.TrimEnd` | app/composables/configurationImport.ts:119 | The result is a prefix of the input; everything dropped is white space, and the result does not end with white space |
| `Text.TrimKeepsAbsent` | app/composables/configurationImport.ts:119 | Trimming never introduces a character that was not in the input |
| `Text.UpperKeepsAbsent` | app/composables/configurationImport.ts:119 | Upper-casing never introduces a non-letter that was not in the input |
| `Text.LinesJoinLines` | src-tauri/src/flasher.rs:59-66 | Single-line strings, each followed by a newline, split back into exactly those strings |
| `Text.JoinLinesEndsWithNewline` | src-tauri/src/flasher.rs:59-66 | Joining at least one line leaves a newline as the last character |
| `ConfigurationImport.DropSeparators` | app/composables/configurationImport.ts:91 | After `replaceAll(/[ _().]/g, '')` none of the five characters is left, and the result is no longer than the input |
| `ConfigurationImport.NormaliseKey` | app/composables/configurationImport.ts:91 | A normalised header has no separator and no upper-case letter |
| `ConfigurationImport.DropSeparatorsAppend` | app/composables/configurationImport.ts:91 | Removing separators distributes over concatenation |
| `ConfigurationImport.DropSeparatorsNone` | app/composables/configurationImport.ts:91 | A header without separators is left as it is |
| `ConfigurationImport.NormaliseKeyIdempotent` | app/composables/configurationImport.ts:91 | Normalising a normalised header changes nothing |
| `ConfigurationImport.NormaliseKeyAppend` | app/composables/configurationImport.ts:91 | Normalisation works character by character: normalising a concatenation concatenates the normalised parts |
| `ConfigurationImport.FindKey` | app/composables/configurationImport.ts:90-93 | `find` returns the first header whose normalised form is in the list; no header is found exactly when none normalises into it |
| `ConfigurationImport.FuzzyKeyFirstMatch` | app/composables/configurationImport.ts:89-97 | For the import's key lists, `fuzzyKey` is undefined exactly when no header normalises into the list; otherwise it is the value of the first header that does |
| `ConfigurationImport.Location` | app/composables/configurationImport.ts:101-112 | Latitude and longitude are both set or both undefined. They are set exactly when the location cell exists, has a comma, and both parts parse as numbers; then they are the numbers parsed from the text before the first comma and the text between it and the next comma |
| `ConfigurationImport.AssetConfig` | app/composables/configurationImport.ts:114-125 | The radio id and key are both set or both undefined. They are set exactly when the `config` cell exists, has a comma, and both trimmed, upper-cased parts are non-empty: the text before the first comma and the text between the first and the second comma (or the end). With no `config` cell both are undefined |
| `ConfigurationImport.AssetConfigIdHasNoComma` | app/composables/configurationImport.ts:118-119 | The radio id never contains the comma that separated it from the key |
| `ConfigurationImport.AddRow` | app/composables/configurationImport.ts:144-154 | One iteration of the row loop returns the new parsed list, which `ParseRows` assigns back; it agrees with the specification step `Step` |
| `ConfigurationImport.ParseRows` | app/composables/configurationImport.ts:99-159 | The row loop yields the fold of its rows, `Grouped`, and every configuration it yields has at least one asset |
| `ConfigurationImport.FoldHasAssets` | app/composables/configurationImport.ts:127-154 | Every configuration the grouping produces holds at least one asset |
| `ConfigurationImport.FoldFollowsRowOrder` | app/composables/configurationImport.ts:144-154 | The ids of the configurations produced are the ids of the complete rows, in row order |
| `ConfigurationImport.StartedIdsEmpty` | app/composables/configurationImport.ts:144-154 | No configuration is started exactly when no row has all five furniture fields |
| `ConfigurationImport.GroupedRows` | app/composables/configurationImport.ts:99-159 | Over a whole sheet: configurations appear in the order of their complete rows, each has an asset, and the result is empty exactly when no row is complete |
| `ConfigurationImport.AssetOnlyRow` | app/composables/configurationImport.ts:144-152 | A row missing a furniture field appends its asset to the latest configuration when the asset is complete. Every earlier configuration is unchanged. With no configuration yet, or an incomplete asset, nothing changes |
| `ConfigurationImport.CompleteRowStartsConfiguration` | app/composables/configurationImport.ts:127-154 | A complete row appends one new configuration, with its furniture id and its single asset even if that asset is incomplete, after the existing ones |
| `ConfigurationImport.FindFurniture` | app/composables/configurationImport.ts:40 | `findIndex` returns the first entry with the furniture id; nothing is found only when no entry has it |
| `ConfigurationImport.ApplyConservesConfigurations` | app/composables/configurationImport.ts:39-50 | Applying moves a record between the two lists; the multiset of configurations across both is unchanged |
| `ConfigurationImport.ApplyMovesFirstMatch` | app/composables/configurationImport.ts:39-50 | With no available entry of that furniture id nothing changes. Otherwise exactly the first such entry leaves the available list, the rest keep their order, and the applied list gains that entry stamped with the device id and time |
| `ConfigurationImport.ConfigurationImport.constructor` | app/composables/configurationImport.ts:34-37 | The import starts with empty, separate imported and available arrays, nothing applied, and no file name |
| `ConfigurationImport.ConfigurationImport.OnChange` | app/composables/configurationImport.ts:59-165 | Without a file or first sheet nothing changes. Otherwise available and imported become one array holding the grouped rows, applied is emptied, and the file name is kept |
| `ConfigurationImport.ConfigurationImport.ApplyConfiguration` | app/composables/configurationImport.ts:39-50 | The available array's contents and the applied list become what `Apply` gives. The array object is kept, so the splice is visible through every list sharing it |
| `ConfigurationImport.ConfigurationImport.ClearConfig` | app/composables/configurationImport.ts:52-57 | No file name; available, applied and imported are all empty again |
| `ConfigurationImport.ImportThenApply` | app/composables/configurationImport.ts:161-162 | After an import and an apply, the imported list has lost the applied entry too, because it is the same array as the available list |
| `Flasher.GenerateScript` | src-tauri/src/flasher.rs:50-67 | Fails with "Invalid firmware path" when the firmware path is not text, checked first, and with "Invalid password path" when the password path is not text; succeeds exactly when both are text |
| `Flasher.ScriptLinesAreSingleLines` | src-tauri/src/flasher.rs:59-66 | With a single-line port and paths, every line of the script is a single line |
| `Flasher.ScriptHasSixLines` | src-tauri/src/flasher.rs:59-66 | The script reads back as exactly six lines, in order: MODE with the port, DELAY 1000, CHANGE_BAUD_RATE 115200, RX_PASSWORD with the password path, RX_DATA_BLOCK with the firmware path, and SET_PC 0x6586; the script ends with a newline |
| `Flasher.Scan` | src-tauri/src/flasher.rs:104-170 | The fold never reports a timeout, and it reports success only with exit code 0 |
| `Flasher.HandleBslScripterOutput` | src-tauri/src/flasher.rs:104-170 | The `while let` loop with its counter computes exactly the fold `Scan` from a zero counter |
| `Flasher.ScanFrom` | src-tauri/src/flasher.rs:109-160 | After events that did not end the loop, the rest of the loop runs with the counter those events produced |
| `Flasher.ScanOutcome` | src-tauri/src/flasher.rs:104-170 | The result is that of the first event that ends the loop: a termination copies its code and succeeds only on 0, and a fifth consecutive ACK line gives exit code 1000. A stream that closes first fails with no exit code |
| `Flasher.CounterIgnoresErrors` | src-tauri/src/flasher.rs:137-147 | Standard-error lines and process errors leave the ACK-error counter unchanged |
| `Flasher.CounterIsTrailingRun` | src-tauri/src/flasher.rs:109-131 | The counter equals the number of ACK-marker lines that end the standard output seen so far |
| `Flasher.AckAbortIffRunOfFive` | src-tauri/src/flasher.rs:116-128 | A standard-output line ends the loop exactly when it completes five marker lines in a row among the standard-output lines; shorter runs never abort |
| `Flasher.MarkerLinesAbort` | src-tauri/src/flasher.rs:116-128 | Enough marker lines in a row to reach the limit end the fold with `success=false, exit_code=Some(1000), timed_out=false` |
| `Flasher.FiveAckErrorsAbort` | src-tauri/src/flasher.rs:116-128 | Five marker lines in a row, after any events that did not end the loop, abort with exit code 1000 |
| `Flasher.CleanupEvent` | src-tauri/src/flasher.rs:172-188 | Exactly one event: finished iff success, timeout iff not success and timed out, failed otherwise, carrying the exit code. Success takes priority over a timeout |
| `Flasher.ScanNeverReportsTimeout` | src-tauri/src/flasher.rs:148-169 | A result of the output loop is reported as finished or failed, never as a timeout |
| `Flasher.App.constructor` | src-tauri/src/lib.rs:14-20 | The application starts with no flasher running and no event emitted |
| `Flasher.App.AcquireFlasherLock` | src-tauri/src/flasher.rs:70-79 | Fails with "Flasher is already running" when the flag is set. Otherwise it sets the flag and succeeds. Either way the flag ends set |
| `Flasher.App.ReleaseFlasherLock` | src-tauri/src/flasher.rs:81-84 | Clears the flag |
| `Flasher.App.CleanupFlash` | src-tauri/src/flasher.rs:172-201 | Appends exactly the one event `CleanupEvent` chooses, then releases the lock |
| `Flasher.App.FlashTask` | src-tauri/src/flasher.rs:231-263 | The spawned task reports the loop's result, or the timed-out result when the timer fired first, and always releases the lock |
| `Flasher.App.FlashAsWritten` | src-tauri/src/flasher.rs:203-266 | The command as written. A held lock refuses the call and changes nothing. A failure to create the temporary files, to build the script, to write the script file or to spawn the scripter returns an error, releases the lock and emits nothing; the error is the failing step's own message, and a spawn failure reads `Failed to spawn BSL scripter: ` + its cause. A sidecar failure returns its error with the lock still held and emits nothing. It succeeds exactly when the lock was free and every step succeeded, and then ends with the cleanup event recorded and the lock released |
| `Flasher.App.Flash` | src-tauri/src/flasher.rs:203-266 | The command with every error path releasing the lock. It succeeds exactly when the lock was free and every step succeeded. Each failure returns the failing step's own message, with `Failed to create sidecar command: ` or `Failed to spawn BSL scripter: ` before the cause for the scripter steps. A failure leaves the lock as it found it and emits nothing. A success ends with the cleanup event recorded and the lock released |
| `Flasher.SidecarFailureBlocksLaterFlashes` | src-tauri/src/flasher.rs:219-222 | As written, after one sidecar failure the next flash is refused with "Flasher is already running" |
| `Flasher.SidecarFailureThenFlash` | src-tauri/src/flasher.rs:219-222 | With the lock released on that path, the next flash after a sidecar failure goes ahead |
| `BslFlasher.ReasonFor` | app/composables/BSLFlasher.ts:63-85 | `bsl-failed` with payload 1000 is ACK_ERROR and any other payload is FAILURE. `bsl-finished` is SUCCESS and `bsl-timeout` is TIMEOUT, each in both directions |
| `BslFlasher.ClosesModalIffNoError` | app/composables/BSLFlasher.ts:25-47 | A reason closes the modal exactly when it patches no error text into it |
| `BslFlasher.ReasonOfResult` | app/composables/BSLFlasher.ts:71-79 | From a backend result to a frontend reason: success first, then timeout, then exit code 1000 as ACK_ERROR, else FAILURE |
| `BslFlasher.AckAbortReadsAsAckError` | app/composables/BSLFlasher.ts:73-75 | Five ACK-error lines in a row from the scripter reach the frontend as ACK_ERROR |
| `BslFlasher.TimeoutOnlyFromTimer` | app/composables/BSLFlasher.ts:81-84 | TIMEOUT comes only from the backend's timer, never from the output loop |
| `BslFlasher.ExitCodeThousandReadsAsAckError` | app/composables/BSLFlasher.ts:73 | A scripter that itself exits with code 1000 is also reported as ACK_ERROR: the abort code and a real exit code collide |
| `BslFlasher.BslFlasher.constructor` | app/composables/BSLFlasher.ts:19-21 | The frontend starts not flashing, with the modal closed, no error text, and no reason reported |
| `BslFlasher.BslFlasher.Cleanup` | app/composables/BSLFlasher.ts:23-50 | Always clears `flashing` and reports the reason exactly once. SUCCESS and INIT_ERROR close the modal. Every other reason leaves it as it was and shows its text: "Device didn't respond", "Flash took too long", or "Firmware update failed" |
| `BslFlasher.BslFlasher.Flash` | app/composables/BSLFlasher.ts:52-61 | Sets `flashing` and opens the modal before invoking. A rejected invoke ends in cleanup with INIT_ERROR, which closes the modal and reports that reason once |
| `BslFlasher.BslFlasher.OnBackendEvent` | app/composables/BSLFlasher.ts:63-85 | Each backend event reaches cleanup with the reason `ReasonFor` gives. `bsl-finished` closes the modal and keeps the error text; every other event keeps the modal's open flag and shows its reason's text |
| `BslFlasher.BslFlasher.Unmount` | app/composables/BSLFlasher.ts:87-92 | Unmounting cleans up with QUIT: not flashing, QUIT reported, and "Firmware update failed" shown |
| `BslFlasher.FlashRoundTrip` | app/composables/BSLFlasher.ts:63-85 | One flash from backend to frontend: the reason recorded is `ReasonFor` of the event the backend's cleanup emits. It is TIMEOUT exactly when the timer fired |

## Left out

- Regular expressions. The `DEVID`, `versionShort` (`v\w+(?:\.\w+)+`), meter, `I=`, listening and `OPM_` patterns are recognised by hand-written leftmost-match functions. The literal patterns are substring tests. `versionLong`, `versionTag`, `stackMode`, `transmitStart` and `transmitEnd` use greedy `.+`/`\S+` with backtracking, so they are given recognisers, passed in as functions. Their rule order and handlers are modelled exactly. The predicate `Plausible` only asks that each given recogniser matches a line containing its pattern's literal text; the lemmas that route a line past those five rules assume it.
- ConfigurationImport.AddRow: the loop body's `parsedRows.push` and the push into the latest configuration's asset list are modelled as a new sequence that the loop assigns back, not as a mutation of a shared array.
- The `console.log` calls and Vue reactivity. `ref` records become fields of the engine and import classes.
- `Number()` on digit captures is exact: a time or listening value above 2^53 is not rounded to a float. The meter index check gives the same outcome either way, because every digit string whose value exceeds 2^53-1 also converts to an unsafe number.
- The declared but never-initialised `DeviceState` counters (`needsFlash`, `lastQueryAttempt` and the two others) are not modelled.
- ConfigurationImport.Location: `Number()` on the coordinate strings is a parameter, `parse`, returning nothing for NaN. Its rules (white space, empty string, hexadecimal, float rounding) are not modelled.
- Case mapping (`toLowerCase`, `toUpperCase`) covers the ASCII letters only, and there is no Unicode case folding.
- A spreadsheet row is a sequence of (header, cell text) pairs in key order. JavaScript's ordering of integer-like keys first in `Object.keys` is not modelled. Cells are taken as already stringified by `String()`, and numbers and dates are not modelled as such.
- The file dialog, the xlsx decoding and `file.arrayBuffer()`. A selected file is a name plus an optional first sheet of rows. The `try`/`catch` around a row is left out because nothing in the modelled row code throws.
- The timestamp of an applied configuration is a parameter, `now`, instead of `new Date()`.
- Flasher.App.emitted records only the event `cleanup_flash` sends. The `bsl-stdout` event for each standard-output line that does not end the loop and the `bsl-stderr` event for each standard-error line are not modelled; the frontend core registers no listener for either.
- In the flasher: temporary-file creation, sidecar spawning, `child.kill()`, event emission failures, logging and UTF-8 decoding of output lines are left out. Lines are given as text. The failures of the invisible steps are parameters: `fileError` for the temporary directory and the firmware and password writes, `writeError` for the script-file write after the script is built, and `sidecarError` and `spawnError`, and a path that is not valid UTF-8 is `None`.
- The twenty-second tokio timeout is a parameter, `timedOut`: when set, the loop's result is discarded for the timed-out result.
- The spawned task runs to completion inside the `flash` call, instead of concurrently. The asynchronous lock release of `release_flasher_lock_with_app` happens at once.
- In the frontend: registering and removing the event listeners, and the modal's component and overlay, are left out. The modal is an open flag plus an error text. `open()` is modelled as only setting the flag.
- The printer, serial-port, database, store and terminal-pane code is not part of this model.

## Findings

| source | as written | input that shows it | evidently intended | confidence | as-written member | corrected member |
|---|---|---|---|---|---|---|
| src-tauri/src/flasher.rs:219-222 | When the sidecar command cannot be created, `flash` returns the error without releasing `bsl_flasher_running`; the other error paths release it | `flash` called when creating the `bsl-scripter` sidecar fails, then `flash` called again: the second call is refused with "Flasher is already running" for the rest of the session | Release the lock on this path as on the config-creation and spawn failures | not executed | `Flasher.SidecarFailureBlocksLaterFlashes` | `Flasher.App.Flash` |
