/**
 * Spreadsheet import of street-furniture configurations: each row of the
 * first sheet, read as header/value pairs, is turned into a candidate
 * configuration with one asset; complete rows start a configuration,
 * asset-only rows add an asset to the latest one. The imported list is then
 * consumed by applying configurations to devices.
 */
module ConfigurationImport {
  import opened Common
  import opened Text

  /**
   * One spreadsheet row: its header keys in `Object.keys` order, each with
   * its cell already turned into text by `String(...)`.
   */
  type Row = seq<(string, string)>

  /** One radio asset; a field is `None` when its column was missing. */
  datatype Asset = Asset(
    assetInfoId: Option<string>,
    coAssetId: Option<string>,
    radioId: Option<string>,
    radioIdFull: Option<string>,
    wmbusKey: Option<string>)

  /** A configuration as stored in the imported list: its furniture fields are all defined. */
  datatype Configuration = Configuration(
    sFurnitureId: string,
    sFurnitureAddress: string,
    sFurnitureLatitude: real,
    sFurnitureLongitude: real,
    sFurnitureW3W: string,
    assets: seq<Asset>)

  /** A configuration that was applied to a device, with the device id and the time it was applied. */
  datatype AppliedConfiguration = AppliedConfiguration(timestamp: nat, deviceId: string, configuration: Configuration)

  /** What one row yields before it is checked for completeness. */
  datatype Candidate = Candidate(
    sFurnitureId: Option<string>,
    sFurnitureAddress: Option<string>,
    sFurnitureLatitude: Option<real>,
    sFurnitureLongitude: Option<real>,
    sFurnitureW3W: Option<string>,
    asset: Asset)

  // ---------------------------------------------------------------------
  // Fuzzy header keys
  // ---------------------------------------------------------------------

  /** The characters `[ _().]` that are deleted from a header key. */
  predicate IsKeySeparator(c: char) {
    c == ' ' || c == '_' || c == '(' || c == ')' || c == '.'
  }

  function DropSeparators(s: string): (r: string)
    ensures forall k :: 0 <= k < |r| ==> !IsKeySeparator(r[k])
    ensures |r| <= |s|
  {
    if s == [] then []
    else if IsKeySeparator(s[0]) then DropSeparators(s[1..])
    else [s[0]] + DropSeparators(s[1..])
  }

  /** `key.toLowerCase().replaceAll(/[ _().]/g, '')`. */
  function NormaliseKey(key: string): (r: string)
    ensures forall k :: 0 <= k < |r| ==> !IsKeySeparator(r[k]) && !('A' <= r[k] <= 'Z')
  {
    LowerHasNoUpper(key);
    DropKeepsChars(Lower(key));
    DropSeparators(Lower(key))
  }

  lemma LowerHasNoUpper(s: string)
    ensures forall k :: 0 <= k < |Lower(s)| ==> !('A' <= Lower(s)[k] <= 'Z')
  {
  }

  /** Every character that survives `DropSeparators` was in the input. */
  lemma {:induction false} DropKeepsChars(s: string)
    ensures forall k :: 0 <= k < |DropSeparators(s)| ==> DropSeparators(s)[k] in s
  {
    if s != [] {
      DropKeepsChars(s[1..]);
    }
  }

  /** Deleting separators distributes over concatenation. */
  lemma {:induction false} DropSeparatorsAppend(a: string, b: string)
    ensures DropSeparators(a + b) == DropSeparators(a) + DropSeparators(b)
  {
    if a == [] {
      assert a + b == b;
    } else {
      assert (a + b)[0] == a[0];
      assert (a + b)[1..] == a[1..] + b;
      DropSeparatorsAppend(a[1..], b);
      if !IsKeySeparator(a[0]) {
        assert DropSeparators(a + b) == [a[0]] + (DropSeparators(a[1..]) + DropSeparators(b));
      }
    }
  }

  /** A string without separators is left as it is. */
  lemma {:induction false} DropSeparatorsNone(s: string)
    requires forall k :: 0 <= k < |s| ==> !IsKeySeparator(s[k])
    ensures DropSeparators(s) == s
  {
    if s != [] {
      DropSeparatorsNone(s[1..]);
    }
  }

  /** Normalising twice is normalising once: a normalised key is its own normal form. */
  lemma NormaliseKeyIdempotent(key: string)
    ensures NormaliseKey(NormaliseKey(key)) == NormaliseKey(key)
  {
    var n := NormaliseKey(key);
    assert Lower(n) == n;
    DropSeparatorsNone(n);
  }

  /**
   * Normalisation works piecewise, so separators and case can be spread
   * anywhere in a header without changing which key it names.
   */
  lemma NormaliseKeyAppend(a: string, b: string)
    ensures NormaliseKey(a + b) == NormaliseKey(a) + NormaliseKey(b)
  {
    assert Lower(a + b) == Lower(a) + Lower(b);
    DropSeparatorsAppend(Lower(a), Lower(b));
  }

  /** The index of the first header whose normal form is one of `keys`. */
  function FindKey(row: Row, keys: seq<string>): (r: Option<nat>)
    ensures r.Some? ==> r.value < |row| && NormaliseKey(row[r.value].0) in keys
    ensures r.Some? ==> forall j :: 0 <= j < r.value ==> NormaliseKey(row[j].0) !in keys
    ensures r.None? ==> forall j :: 0 <= j < |row| ==> NormaliseKey(row[j].0) !in keys
  {
    if row == [] then None
    else if NormaliseKey(row[0].0) in keys then Some(0)
    else match FindKey(row[1..], keys)
      case None => None
      case Some(i) => Some(i + 1)
  }

  /** `fuzzyKey(row, keys)`: the text of the first matching column, if its header is not empty. */
  function FuzzyKey(row: Row, keys: seq<string>): Option<string> {
    match FindKey(row, keys)
    case None => None
    case Some(i) => if row[i].0 == "" then None else Some(row[i].1)
  }

  /**
   * For key lists without the empty string (all the lists the import uses),
   * `fuzzyKey` yields exactly the value of the first column whose header
   * normalises into the list, and nothing when no header does.
   */
  lemma FuzzyKeyFirstMatch(row: Row, keys: seq<string>)
    requires "" !in keys
    ensures FuzzyKey(row, keys).None? <==> forall j :: 0 <= j < |row| ==> NormaliseKey(row[j].0) !in keys
    ensures FuzzyKey(row, keys).Some? ==>
              exists i :: 0 <= i < |row| && NormaliseKey(row[i].0) in keys && FuzzyKey(row, keys).value == row[i].1
                       && forall j :: 0 <= j < i ==> NormaliseKey(row[j].0) !in keys
  {
    assert NormaliseKey("") == "";
  }

  // ---------------------------------------------------------------------
  // Cell splitting
  // ---------------------------------------------------------------------

  /**
   * The furniture location `"<lat>,<lon>"`: split at the first comma and
   * parse both parts with `parse` (JavaScript's `Number`, `None` for NaN). A
   * missing second part is `Number(undefined)`, which is NaN.
   */
  function Location(row: Row, parse: string -> Option<real>): (r: (Option<real>, Option<real>))
    ensures r.0.Some? <==> r.1.Some?
    ensures r.0.Some? <==>
              match FuzzyKey(row, ["sfurniturelocation"])
              case None => false
              case Some(cell) =>
                var coords := SplitTwo(cell, ',');
                coords.1.Some? && parse(coords.0).Some? && parse(coords.1.value).Some?
    ensures r.0.Some? ==>
              match FuzzyKey(row, ["sfurniturelocation"])
              case None => false
              case Some(cell) =>
                var coords := SplitTwo(cell, ',');
                coords.1.Some? && r == (parse(coords.0), parse(coords.1.value))
  {
    match FuzzyKey(row, ["sfurniturelocation"])
    case None => (None, None)
    case Some(cell) =>
      var coords := SplitTwo(cell, ',');
      var latitude := parse(coords.0);
      var longitude := if coords.1.Some? then parse(coords.1.value) else None;
      if latitude.Some? && longitude.Some? then (latitude, longitude) else (None, None)
  }

  /**
   * The asset's `config` cell `"<radio id>,<key>"`: the text before the
   * first comma and the text between it and the next comma (or the end),
   * each trimmed and upper-cased; kept exactly when both are non-empty.
   */
  function AssetConfig(row: Row): (r: (Option<string>, Option<string>))
    ensures r.0.Some? <==> r.1.Some?
    ensures r.0.Some? ==> r.0.value != [] && r.1.value != []
    ensures r.0.Some? ==>
              exists cell :: FuzzyKey(row, ["config"]) == Some(cell)
                && var parts := SplitTwo(cell, ',');
                   parts.1.Some? && r.0.value == Upper(Trim(parts.0)) && r.1.value == Upper(Trim(parts.1.value))
    ensures match FuzzyKey(row, ["config"])
            case None => r == (None, None)
            case Some(cell) =>
              var parts := SplitTwo(cell, ',');
              parts.1.Some? && Upper(Trim(parts.0)) != [] && Upper(Trim(parts.1.value)) != [] ==>
                r == (Some(Upper(Trim(parts.0))), Some(Upper(Trim(parts.1.value))))
  {
    match FuzzyKey(row, ["config"])
    case None => (None, None)
    case Some(cell) =>
      var parts := SplitTwo(cell, ',');
      var id := Upper(Trim(parts.0));
      var key := if parts.1.Some? then Some(Upper(Trim(parts.1.value))) else None;
      if id != [] && key.Some? && key.value != [] then (Some(id), key) else (None, None)
  }

  /** The radio id never holds the comma that separated it from the key. */
  lemma AssetConfigIdHasNoComma(row: Row)
    ensures AssetConfig(row).0.Some? ==> ',' !in AssetConfig(row).0.value
  {
    match FuzzyKey(row, ["config"])
    case None =>
    case Some(cell) =>
      var parts := SplitTwo(cell, ',');
      TrimKeepsAbsent(parts.0, ',');
      UpperKeepsAbsent(Trim(parts.0), ',');
  }

  /** The candidate configuration built from one row. */
  function RowCandidate(row: Row, parse: string -> Option<real>): Candidate {
    var location := Location(row, parse);
    var config := AssetConfig(row);
    Candidate(
      FuzzyKey(row, ["sfurnitureid"]),
      FuzzyKey(row, ["sfurnitureaddress"]),
      location.0,
      location.1,
      FuzzyKey(row, ["sfurniturew3w"]),
      Asset(
        FuzzyKey(row, ["assetinfoid"]),
        FuzzyKey(row, ["coassetidsn", "coassetid"]),
        FuzzyKey(row, ["radioid"]),
        config.0,
        config.1))
  }

  /** No furniture field of the candidate is undefined. */
  predicate FurnitureComplete(c: Candidate) {
    c.sFurnitureId.Some? && c.sFurnitureAddress.Some? && c.sFurnitureLatitude.Some?
    && c.sFurnitureLongitude.Some? && c.sFurnitureW3W.Some?
  }

  /** No field of the asset is undefined. */
  predicate AssetComplete(a: Asset) {
    a.assetInfoId.Some? && a.coAssetId.Some? && a.radioId.Some? && a.radioIdFull.Some? && a.wmbusKey.Some?
  }

  function ToConfiguration(c: Candidate): Configuration
    requires FurnitureComplete(c)
  {
    Configuration(c.sFurnitureId.value, c.sFurnitureAddress.value, c.sFurnitureLatitude.value,
                  c.sFurnitureLongitude.value, c.sFurnitureW3W.value, [c.asset])
  }

  // ---------------------------------------------------------------------
  // Grouping rows into configurations
  // ---------------------------------------------------------------------

  /**
   * One row of the import loop: a complete row starts a configuration with
   * its one asset; otherwise a complete asset goes to the latest
   * configuration, if there is one, and anything else is skipped.
   */
  function Step(parsed: seq<Configuration>, c: Candidate): seq<Configuration> {
    if FurnitureComplete(c) then parsed + [ToConfiguration(c)]
    else if AssetComplete(c.asset) && parsed != [] then
      var last := parsed[|parsed| - 1];
      parsed[|parsed| - 1 := last.(assets := last.assets + [c.asset])]
    else parsed
  }

  /** The candidates of a run of rows, one per row. */
  function Candidates(rows: seq<Row>, parse: string -> Option<real>): (r: seq<Candidate>)
    ensures |r| == |rows|
    ensures forall k :: 0 <= k < |rows| ==> r[k] == RowCandidate(rows[k], parse)
  {
    seq(|rows|, k requires 0 <= k < |rows| => RowCandidate(rows[k], parse))
  }

  /** The configurations grouped from a run of candidates, in order. */
  function Fold(cs: seq<Candidate>): seq<Configuration> {
    if cs == [] then [] else Step(Fold(cs[..|cs| - 1]), cs[|cs| - 1])
  }

  /** The configurations parsed from a sheet's rows. */
  function Grouped(rows: seq<Row>, parse: string -> Option<real>): seq<Configuration> {
    Fold(Candidates(rows, parse))
  }

  /** The body of the row loop: push a new configuration, or push the asset onto the latest one. */
  method AddRow(parsedJson: seq<Configuration>, configuration: Candidate) returns (r: seq<Configuration>)
    ensures r == Step(parsedJson, configuration)
  {
    r := parsedJson;
    if !FurnitureComplete(configuration) {
      if AssetComplete(configuration.asset) && r != [] {
        var last := r[|r| - 1];
        r := r[|r| - 1 := last.(assets := last.assets + [configuration.asset])];
      }
      return;
    }
    r := r + [ToConfiguration(configuration)];
  }

  /** The loop over the sheet's rows, building `parsedJson` in row order. */
  method ParseRows(rows: seq<Row>, parse: string -> Option<real>) returns (parsedJson: seq<Configuration>)
    ensures parsedJson == Grouped(rows, parse)
    ensures forall k :: 0 <= k < |parsedJson| ==> |parsedJson[k].assets| >= 1
  {
    ghost var cs := Candidates(rows, parse);
    parsedJson := [];
    var i := 0;
    while i < |rows|
      invariant i <= |rows|
      invariant parsedJson == Fold(cs[..i])
    {
      assert cs[..i + 1][..i] == cs[..i];
      parsedJson := AddRow(parsedJson, RowCandidate(rows[i], parse));
      i := i + 1;
    }
    assert cs[..|rows|] == cs;
    FoldHasAssets(cs);
  }

  /** Every grouped configuration has at least one asset. */
  lemma {:induction false} FoldHasAssets(cs: seq<Candidate>)
    ensures forall k :: 0 <= k < |Fold(cs)| ==> |Fold(cs)[k].assets| >= 1
  {
    if cs != [] {
      FoldHasAssets(cs[..|cs| - 1]);
    }
  }

  /** The furniture ids of the candidates that start a configuration, in order. */
  function StartedIds(cs: seq<Candidate>): seq<string> {
    if cs == [] then []
    else
      var c := cs[|cs| - 1];
      StartedIds(cs[..|cs| - 1]) + if FurnitureComplete(c) then [c.sFurnitureId.value] else []
  }

  function Ids(configurations: seq<Configuration>): (r: seq<string>)
    ensures |r| == |configurations|
    ensures forall k :: 0 <= k < |configurations| ==> r[k] == configurations[k].sFurnitureId
  {
    if configurations == [] then []
    else Ids(configurations[..|configurations| - 1]) + [configurations[|configurations| - 1].sFurnitureId]
  }

  /**
   * The grouped configurations are exactly the complete candidates, one
   * each, in order: asset-only and skipped rows never start or reorder one.
   */
  lemma {:induction false} FoldFollowsRowOrder(cs: seq<Candidate>)
    ensures Ids(Fold(cs)) == StartedIds(cs)
  {
    if cs != [] {
      var prefix := cs[..|cs| - 1];
      FoldFollowsRowOrder(prefix);
      var before := Fold(prefix);
      var after := Fold(cs);
      var c := cs[|cs| - 1];
      if FurnitureComplete(c) {
        assert Ids(after) == Ids(before) + [c.sFurnitureId.value];
      } else {
        assert Ids(after) == Ids(before);
      }
    }
  }

  lemma {:induction false} StartedIdsEmpty(cs: seq<Candidate>)
    ensures StartedIds(cs) == [] <==> forall k :: 0 <= k < |cs| ==> !FurnitureComplete(cs[k])
  {
    if cs != [] {
      var prefix := cs[..|cs| - 1];
      StartedIdsEmpty(prefix);
      assert forall k :: 0 <= k < |prefix| ==> prefix[k] == cs[k];
    }
  }

  /**
   * Parsing a sheet yields its complete rows' configurations in row order,
   * each with at least one asset, and nothing exactly when no row has all
   * five furniture fields.
   */
  lemma GroupedRows(rows: seq<Row>, parse: string -> Option<real>)
    ensures Ids(Grouped(rows, parse)) == StartedIds(Candidates(rows, parse))
    ensures forall k :: 0 <= k < |Grouped(rows, parse)| ==> |Grouped(rows, parse)[k].assets| >= 1
    ensures Grouped(rows, parse) == []
        <==> forall k :: 0 <= k < |rows| ==> !FurnitureComplete(RowCandidate(rows[k], parse))
  {
    var cs := Candidates(rows, parse);
    FoldFollowsRowOrder(cs);
    FoldHasAssets(cs);
    StartedIdsEmpty(cs);
  }

  /**
   * An asset-only row adds its asset to the latest configuration and leaves
   * the earlier ones alone; with no configuration yet, or an incomplete
   * asset, the row changes nothing.
   */
  lemma AssetOnlyRow(parsed: seq<Configuration>, c: Candidate)
    requires !FurnitureComplete(c)
    ensures |Step(parsed, c)| == |parsed|
    ensures forall k :: 0 <= k < |parsed| - 1 ==> Step(parsed, c)[k] == parsed[k]
    ensures AssetComplete(c.asset) && parsed != [] ==>
              var last := parsed[|parsed| - 1];
              Step(parsed, c)[|parsed| - 1] == last.(assets := last.assets + [c.asset])
    ensures !AssetComplete(c.asset) || parsed == [] ==> Step(parsed, c) == parsed
  {
  }

  /** A complete row starts a new configuration holding its asset alone, complete or not. */
  lemma CompleteRowStartsConfiguration(parsed: seq<Configuration>, c: Candidate)
    requires FurnitureComplete(c)
    ensures var r := Step(parsed, c);
      && |r| == |parsed| + 1 && r[..|parsed|] == parsed
      && r[|parsed|].sFurnitureId == c.sFurnitureId.value
      && r[|parsed|].assets == [c.asset]
  {
  }

  // ---------------------------------------------------------------------
  // Applying configurations
  // ---------------------------------------------------------------------

  /** `findIndex` by furniture id. */
  function FindFurniture(cs: seq<Configuration>, id: string): (r: Option<nat>)
    ensures r.Some? ==> r.value < |cs| && cs[r.value].sFurnitureId == id
    ensures r.Some? ==> forall j :: 0 <= j < r.value ==> cs[j].sFurnitureId != id
    ensures r.None? ==> forall j :: 0 <= j < |cs| ==> cs[j].sFurnitureId != id
  {
    if cs == [] then None
    else if cs[0].sFurnitureId == id then Some(0)
    else match FindFurniture(cs[1..], id)
      case None => None
      case Some(i) => Some(i + 1)
  }

  /**
   * `applyConfiguration` on the lists as values: the first available entry
   * with the requested furniture id moves to the applied list, stamped with
   * the device id and the time.
   */
  function Apply(available: seq<Configuration>, applied: seq<AppliedConfiguration>,
                 configuration: Configuration, deviceId: string, now: nat): (seq<Configuration>, seq<AppliedConfiguration>)
  {
    match FindFurniture(available, configuration.sFurnitureId)
    case None => (available, applied)
    case Some(i) => (available[..i] + available[i + 1..], applied + [AppliedConfiguration(now, deviceId, available[i])])
  }

  function AppliedConfigurations(applied: seq<AppliedConfiguration>): (r: seq<Configuration>)
    ensures |r| == |applied|
    ensures forall k :: 0 <= k < |applied| ==> r[k] == applied[k].configuration
  {
    if applied == [] then [] else AppliedConfigurations(applied[..|applied| - 1]) + [applied[|applied| - 1].configuration]
  }

  /** Applying moves a record and never creates or loses one. */
  lemma ApplyConservesConfigurations(available: seq<Configuration>, applied: seq<AppliedConfiguration>,
                                     configuration: Configuration, deviceId: string, now: nat)
    ensures var r := Apply(available, applied, configuration, deviceId, now);
      multiset(r.0) + multiset(AppliedConfigurations(r.1)) == multiset(available) + multiset(AppliedConfigurations(applied))
  {
    match FindFurniture(available, configuration.sFurnitureId)
    case None =>
    case Some(i) =>
      assert available == available[..i] + [available[i]] + available[i + 1..];
      var r := Apply(available, applied, configuration, deviceId, now);
      assert AppliedConfigurations(r.1) == AppliedConfigurations(applied) + [available[i]];
  }

  /**
   * With no available entry of that furniture id nothing changes; otherwise
   * exactly the first such entry leaves the available list, the others keep
   * their order, and the applied list gains that entry, not the argument.
   */
  lemma ApplyMovesFirstMatch(available: seq<Configuration>, applied: seq<AppliedConfiguration>,
                             configuration: Configuration, deviceId: string, now: nat)
    ensures var r := Apply(available, applied, configuration, deviceId, now);
      && ((forall j :: 0 <= j < |available| ==> available[j].sFurnitureId != configuration.sFurnitureId)
            ==> r == (available, applied))
      && (forall i :: 0 <= i < |available| && available[i].sFurnitureId == configuration.sFurnitureId
                      && (forall j :: 0 <= j < i ==> available[j].sFurnitureId != configuration.sFurnitureId)
            ==> r.0 == available[..i] + available[i + 1..]
                && r.1 == applied + [AppliedConfiguration(now, deviceId, available[i])])
  {
    var f := FindFurniture(available, configuration.sFurnitureId);
    forall i | 0 <= i < |available| && available[i].sFurnitureId == configuration.sFurnitureId
               && (forall j :: 0 <= j < i ==> available[j].sFurnitureId != configuration.sFurnitureId)
      ensures f == Some(i)
    {
      assert f.Some?;
    }
  }

  // ---------------------------------------------------------------------
  // The import state
  // ---------------------------------------------------------------------

  /** A JavaScript array of configurations, which two refs may share. */
  class ConfigArray {
    var elems: seq<Configuration>

    constructor (elems: seq<Configuration>)
      ensures this.elems == elems
    {
      this.elems := elems;
    }
  }

  /** The file the dialog returned, with the rows of its first sheet if it has one. */
  datatype SelectedFile = SelectedFile(name: string, firstSheet: Option<seq<Row>>)

  class ConfigurationImport {
    var importedConfigurations: ConfigArray
    var availableConfigurations: ConfigArray
    var appliedConfigurations: seq<AppliedConfiguration>
    var filename: Option<string>

    /** `useConfigurationImport()`: two separate empty lists, nothing applied, no file. */
    constructor ()
      ensures fresh(importedConfigurations) && fresh(availableConfigurations)
      ensures importedConfigurations != availableConfigurations
      ensures importedConfigurations.elems == [] && availableConfigurations.elems == []
      ensures appliedConfigurations == [] && filename.None?
    {
      importedConfigurations := new ConfigArray([]);
      availableConfigurations := new ConfigArray([]);
      appliedConfigurations := [];
      filename := None;
    }

    /**
     * The dialog's `onChange`: without a file or a first sheet nothing
     * changes; otherwise the parsed list becomes both the available and the
     * imported list (one array), nothing is applied, and the name is kept.
     */
    method OnChange(file: Option<SelectedFile>, parse: string -> Option<real>)
      modifies this
      ensures file.None? || file.value.firstSheet.None? ==>
                && importedConfigurations == old(importedConfigurations)
                && availableConfigurations == old(availableConfigurations)
                && appliedConfigurations == old(appliedConfigurations) && filename == old(filename)
      ensures file.Some? && file.value.firstSheet.Some? ==>
                && fresh(availableConfigurations) && importedConfigurations == availableConfigurations
                && availableConfigurations.elems == Grouped(file.value.firstSheet.value, parse)
                && appliedConfigurations == [] && filename == Some(file.value.name)
    {
      if file.None? || file.value.firstSheet.None? {
        return;
      }
      var parsedJson := ParseRows(file.value.firstSheet.value, parse);
      var shared := new ConfigArray(parsedJson);
      availableConfigurations := shared;
      importedConfigurations := shared;
      appliedConfigurations := [];
      filename := Some(file.value.name);
    }

    /**
     * `applyConfiguration`: splice the first available entry with the
     * requested furniture id out of the available array (in place, so an
     * imported list sharing that array loses it too) and push it, stamped,
     * onto the applied list.
     */
    method ApplyConfiguration(configuration: Configuration, deviceId: string, now: nat)
      modifies this, availableConfigurations
      ensures importedConfigurations == old(importedConfigurations)
      ensures availableConfigurations == old(availableConfigurations) && filename == old(filename)
      ensures (availableConfigurations.elems, appliedConfigurations)
           == Apply(old(availableConfigurations.elems), old(appliedConfigurations), configuration, deviceId, now)
      ensures importedConfigurations != availableConfigurations ==>
                importedConfigurations.elems == old(importedConfigurations.elems)
    {
      var availableIndex := FindFurniture(availableConfigurations.elems, configuration.sFurnitureId);
      if availableIndex.None? {
        return;
      }
      var i := availableIndex.value;
      var availableConfiguration := availableConfigurations.elems[i];
      appliedConfigurations := appliedConfigurations + [AppliedConfiguration(now, deviceId, availableConfiguration)];
      availableConfigurations.elems := availableConfigurations.elems[..i] + availableConfigurations.elems[i + 1..];
    }

    /** `clearConfig`: no file, and fresh empty available, applied and imported lists. */
    method ClearConfig()
      modifies this
      ensures filename.None? && appliedConfigurations == []
      ensures fresh(availableConfigurations) && fresh(importedConfigurations)
      ensures importedConfigurations != availableConfigurations
      ensures availableConfigurations.elems == [] && importedConfigurations.elems == []
    {
      filename := None;
      availableConfigurations := new ConfigArray([]);
      appliedConfigurations := [];
      importedConfigurations := new ConfigArray([]);
    }
  }

  /**
   * Import a sheet, then apply one configuration: because the two lists are
   * one array after an import, the applied entry is gone from the imported
   * list as well as from the available one.
   */
  method ImportThenApply(rows: seq<Row>, parse: string -> Option<real>, name: string,
                         configuration: Configuration, deviceId: string, now: nat)
    returns (state: ConfigurationImport)
    ensures state.importedConfigurations == state.availableConfigurations
    ensures state.importedConfigurations.elems == Apply(Grouped(rows, parse), [], configuration, deviceId, now).0
    ensures state.appliedConfigurations == Apply(Grouped(rows, parse), [], configuration, deviceId, now).1
  {
    state := new ConfigurationImport();
    state.OnChange(Some(SelectedFile(name, Some(rows))), parse);
    state.ApplyConfiguration(configuration, deviceId, now);
  }
}
