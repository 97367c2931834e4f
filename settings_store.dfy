/**
 * The settings store: `AppSettings`, the record the application persists, and `SettingsManager`,
 * which owns the current record and the settings file.
 *
 * The JSON library and the file system are outside the model. The file is the manager's field
 * `disk`; serialisation and parsing are the two functions of a `Codec`, and the property the
 * source relies on of Newtonsoft's serialiser (what it writes it can read back) is the hypothesis
 * `Lawful(codec)` of the lemmas that need it.
 */
module SettingsStore {
  import opened Wrappers
  import opened Text

  /** C# `int`. */
  newtype int32 = x: int | -0x8000_0000 <= x < 0x8000_0000

  const DefaultThemeColor: string := "#673AB7"
  const LightTheme: string := "Light"
  const DarkTheme: string := "Dark"

  /** The value held by an `AppSettings` object; `null` strings are `None`. */
  datatype Record = Record(
    themeColor: Option<string>,
    autoStart: bool,
    enableSound: bool,
    volume: int32,
    themeType: Option<string>)

  /** What `new AppSettings()` holds: the property initialisers, `null` strings and zero volume. */
  const Unset: Record := Record(None, false, true, 0, None)

  /** The record `CreateDefaultSettings` builds. */
  const Default: Record := Unset.(themeColor := Some(DefaultThemeColor), themeType := Some(LightTheme))

  /** The theme types the application knows. */
  predicate IsKnownThemeType(t: Option<string>) {
    t == Some(LightTheme) || t == Some(DarkTheme)
  }

  /** A record that `ValidateAndRepairSettings` has nothing to repair in. */
  predicate PassesRepair(r: Record) {
    !IsNullOrEmpty(r.themeColor) && IsKnownThemeType(r.themeType)
  }

  /** The value `ValidateAndRepairSettings` leaves in the record it is given. */
  function Repair(r: Record): (q: Record)
    ensures PassesRepair(q)
    ensures q.autoStart == r.autoStart && q.enableSound == r.enableSound && q.volume == r.volume
  {
    var color := if IsNullOrEmpty(r.themeColor) then Some(DefaultThemeColor) else r.themeColor;
    var kind := if IsNullOrEmpty(r.themeType) || (r.themeType.value != LightTheme && r.themeType.value != DarkTheme)
                then Some(LightTheme) else r.themeType;
    r.(themeColor := color, themeType := kind)
  }

  /** Repair replaces exactly the invalid fields, each with its default. */
  lemma RepairTouchesOnlyInvalidFields(r: Record)
    ensures Repair(r).themeColor == if IsNullOrEmpty(r.themeColor) then Some(DefaultThemeColor) else r.themeColor
    ensures Repair(r).themeType == if IsKnownThemeType(r.themeType) then r.themeType else Some(LightTheme)
  {
  }

  /** Repair changes a record exactly when the record fails validation; so it is idempotent. */
  lemma RepairFixesExactlyInvalid(r: Record)
    ensures Repair(r) == r <==> PassesRepair(r)
    ensures Repair(Repair(r)) == Repair(r)
  {
    if PassesRepair(r) {
      assert r.themeType.value == LightTheme || r.themeType.value == DarkTheme;
    }
  }

  lemma DefaultPassesRepair()
    ensures PassesRepair(Default) && Repair(Default) == Default
  {
    RepairFixesExactlyInvalid(Default);
  }

  /** What `JsonConvert.DeserializeObject` does with the file's text. */
  datatype ParseOutcome = Threw | Parsed(value: Option<Record>)

  /** Newtonsoft serialisation (`null` is written as JSON `null`) and deserialisation. */
  datatype Codec = Codec(serialize: Option<Record> -> string, parse: string -> ParseOutcome)

  /** The serialiser writes non-blank text that the parser reads back as the same value. */
  ghost predicate Lawful(codec: Codec) {
    forall o: Option<Record> ::
      codec.parse(codec.serialize(o)) == Parsed(o) && !IsNullOrWhiteSpace(Some(codec.serialize(o)))
  }

  /** The settings file: missing, present but unreadable (`ReadAllText` throws), or present with text. */
  datatype FileState = Absent | Unreadable | Present(text: string)

  /** The record `LoadSettings` adopts from the file, if any: present, not blank, parsed to non-null. */
  function Adopted(f: FileState, codec: Codec): (o: Option<Record>)
    ensures o.Some? ==> f.Present? && !IsNullOrWhiteSpace(Some(f.text)) && codec.parse(f.text) == Parsed(o)
    ensures o.None? ==> f.Absent? || f.Unreadable? || IsNullOrWhiteSpace(Some(f.text))
                        || codec.parse(f.text) in {Threw, Parsed(None)}
  {
    match f
    case Present(text) =>
      if IsNullOrWhiteSpace(Some(text)) then None
      else (match codec.parse(text)
            case Parsed(Some(r)) => Some(r)
            case _ => None)
    case _ => None
  }

  /** The file after `SaveSettingsInternal` tried to write `o`; a failed write is swallowed. */
  function Written(f: FileState, o: Option<Record>, codec: Codec, writeOk: bool): (g: FileState)
    ensures writeOk ==> g == Present(codec.serialize(o))
    ensures !writeOk ==> g == f
  {
    if writeOk then Present(codec.serialize(o)) else f
  }

  /** The record `LoadSettings` makes current, given the file it finds. */
  function LoadedRecord(f: FileState, codec: Codec): (r: Record)
    ensures PassesRepair(r)
  {
    match Adopted(f, codec)
    case Some(parsed) => Repair(parsed)
    case None => Default
  }

  /** The file `LoadSettings` leaves behind: untouched when it adopted the file, else the default written. */
  function FileAfterLoad(f: FileState, codec: Codec, writeOk: bool): (g: FileState)
    ensures Adopted(f, codec).Some? || !writeOk ==> g == f
    ensures g != f ==> writeOk && Adopted(f, codec).None? && g == Present(codec.serialize(Some(Default)))
  {
    if Adopted(f, codec).Some? then f else Written(f, Some(Default), codec, writeOk)
  }

  /** A file with no usable record loads as the default record and is overwritten with it. */
  lemma LoadFallsBackToDefault(f: FileState, codec: Codec, writeOk: bool)
    requires f.Absent? || f.Unreadable? || IsNullOrWhiteSpace(Some(f.text))
             || codec.parse(f.text) == Threw || codec.parse(f.text) == Parsed(None)
    ensures LoadedRecord(f, codec) == Default
    ensures FileAfterLoad(f, codec, writeOk) == Written(f, Some(Default), codec, writeOk)
  {
  }

  /** A file holding a record loads as that record, repaired, and is left as it is. */
  lemma LoadAdoptsParsedRecord(f: FileState, codec: Codec, writeOk: bool, r: Record)
    requires f.Present? && !IsNullOrWhiteSpace(Some(f.text)) && codec.parse(f.text) == Parsed(Some(r))
    ensures LoadedRecord(f, codec) == Repair(r)
    ensures FileAfterLoad(f, codec, writeOk) == f
  {
  }

  /** Saving a record that passes repair and loading again gives the same record back. */
  lemma SaveLoadRoundTrip(f: FileState, codec: Codec, r: Record)
    requires Lawful(codec) && PassesRepair(r)
    ensures LoadedRecord(Written(f, Some(r), codec, true), codec) == r
  {
    var text := codec.serialize(Some(r));
    assert codec.parse(text) == Parsed(Some(r)) && !IsNullOrWhiteSpace(Some(text));
    RepairFixesExactlyInvalid(r);
  }

  /** A file that could not be used is healed: afterwards it holds the default record. */
  lemma LoadHealsFile(f: FileState, codec: Codec)
    requires Lawful(codec) && Adopted(f, codec).None?
    ensures FileAfterLoad(f, codec, true) == Present(codec.serialize(Some(Default)))
    ensures LoadedRecord(FileAfterLoad(f, codec, true), codec) == Default
  {
    DefaultPassesRepair();
    SaveLoadRoundTrip(f, codec, Default);
  }

  /** Loading twice with no save in between gives equal records, whether or not the heal was written. */
  lemma LoadTwiceAgrees(f: FileState, codec: Codec, writeOk: bool)
    requires Lawful(codec)
    ensures LoadedRecord(FileAfterLoad(f, codec, writeOk), codec) == LoadedRecord(f, codec)
  {
    if Adopted(f, codec).None? && writeOk {
      LoadHealsFile(f, codec);
    }
  }

  /** An `AppSettings` object. Callers share it with the manager and change it in place. */
  class AppSettings {
    var themeColor: Option<string>
    var autoStart: bool
    var enableSound: bool
    var volume: int32
    var themeType: Option<string>

    function Value(): Record
      reads this
    {
      Record(themeColor, autoStart, enableSound, volume, themeType)
    }

    /** `new AppSettings()`. */
    constructor ()
      ensures Value() == Unset
    {
      themeColor, autoStart, enableSound, volume, themeType := None, false, true, 0, None;
    }

    /** An object holding `r`, as the deserialiser or an object initialiser builds it. */
    constructor FromRecord(r: Record)
      ensures Value() == r
    {
      themeColor, autoStart, enableSound, volume, themeType := r.themeColor, r.autoStart, r.enableSound, r.volume, r.themeType;
    }
  }

  /** The value a save writes for a possibly-null settings object. */
  function Snapshot(s: AppSettings?): Option<Record>
    reads s
  {
    if s == null then None else Some(s.Value())
  }

  /** The settings manager: the current record and the settings file it is kept in. */
  class SettingsManager {
    const codec: Codec
    var current: AppSettings
    var disk: FileState

    /** The constructor starts from the default record; the file is whatever is on disk. */
    constructor (codec: Codec, disk: FileState)
      ensures this.codec == codec && this.disk == disk
      ensures fresh(current) && current.Value() == Default
    {
      this.codec := codec;
      this.disk := disk;
      current := new AppSettings.FromRecord(Default);
    }

    /** `CreateDefaultSettings`: a new object holding the default record. */
    static method CreateDefaultSettings() returns (s: AppSettings)
      ensures fresh(s) && s.Value() == Default
      ensures PassesRepair(s.Value())
    {
      s := new AppSettings.FromRecord(Default);
      DefaultPassesRepair();
    }

    /** `ValidateAndRepairSettings`: repairs the given object in place. */
    static method ValidateAndRepairSettings(s: AppSettings)
      modifies s
      ensures s.Value() == Repair(old(s.Value()))
    {
      if IsNullOrEmpty(s.themeColor) {
        s.themeColor := Some(DefaultThemeColor);
      }
      if IsNullOrEmpty(s.themeType) || (s.themeType.value != LightTheme && s.themeType.value != DarkTheme) {
        s.themeType := Some(LightTheme);
      }
    }

    /** `SaveSettingsInternal`: overwrite the file with the serialised object; a write error is swallowed. */
    method SaveSettingsInternal(s: AppSettings?, writeOk: bool)
      modifies this`disk
      ensures disk == Written(old(disk), Snapshot(s), codec, writeOk)
    {
      if writeOk {
        disk := Present(codec.serialize(Snapshot(s)));
      }
    }

    /** `SaveSettings(settings)`. */
    method SaveSettings(s: AppSettings?, writeOk: bool)
      modifies this`disk
      ensures disk == Written(old(disk), Snapshot(s), codec, writeOk)
    {
      SaveSettingsInternal(s, writeOk);
    }

    /** `SaveSettings()`: save the current record. */
    method SaveCurrentSettings(writeOk: bool)
      modifies this`disk
      ensures disk == Written(old(disk), Some(current.Value()), codec, writeOk)
    {
      SaveSettingsInternal(current, writeOk);
    }

    /** `GetCurrentSettings`: the object the manager holds, itself and not a copy. */
    method GetCurrentSettings() returns (s: AppSettings)
      ensures s == current
    {
      s := current;
    }

    /** `UpdateSettings`: a non-null object becomes current and is saved; `null` is ignored. */
    method UpdateSettings(s: AppSettings?, writeOk: bool)
      modifies this
      ensures s == null ==> current == old(current) && disk == old(disk)
      ensures s != null ==> current == s && disk == Written(old(disk), Some(s.Value()), codec, writeOk)
    {
      if s != null {
        current := s;
        SaveCurrentSettings(writeOk);
      }
    }

    /**
     * `LoadSettings`: re-read the file. A record parsed from it becomes current and is repaired in
     * place; otherwise (missing, unreadable, blank, `null`, or the parser threw) a new default record
     * becomes current and is written back. The object returned is the one now held.
     */
    method LoadSettings(writeOk: bool) returns (s: AppSettings)
      modifies this`current, this`disk
      ensures s == current && fresh(current)
      ensures current.Value() == LoadedRecord(old(disk), codec)
      ensures disk == FileAfterLoad(old(disk), codec, writeOk)
    {
      if disk.Present? {
        var text := disk.text;
        if !IsNullOrWhiteSpace(Some(text)) {
          var outcome := codec.parse(text);
          if outcome.Parsed? && outcome.value.Some? {
            current := new AppSettings.FromRecord(outcome.value.value);
            ValidateAndRepairSettings(current);
            return current;
          }
        }
      }
      current := CreateDefaultSettings();
      SaveSettingsInternal(current, writeOk);
      s := current;
    }
  }

  /** `SaveSettings(r)` then `LoadSettings()`: a record that passes repair comes back unchanged. */
  method SaveThenLoad(m: SettingsManager, r: AppSettings, writeOk: bool) returns (s: AppSettings)
    requires Lawful(m.codec) && PassesRepair(r.Value())
    modifies m
    ensures s == m.current && s.Value() == old(r.Value())
  {
    m.SaveSettings(r, true);
    SaveLoadRoundTrip(old(m.disk), m.codec, r.Value());
    s := m.LoadSettings(writeOk);
  }
}
