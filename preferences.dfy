/** The preferences file: a JSON object at a fixed path, read with fallbacks to
    a default record and written through a temporary file that is renamed over
    the target. The file system is a map from path to what a read of that path
    would find; a path not in the map is a missing file. JSON encoding is taken
    to round-trip a record exactly. */
module Preferences {
  import opened Outcomes

  type Path = string

  const PreferencesFile: Path := "~/.kroger_mcp_preferences.json"
  const TempFile: Path := PreferencesFile + ".tmp"
  const PreferredKey := "preferred_location_id"
  const NotAnObjectMessage := "preferences document is not a JSON object"

  /** A JSON value stored under a key: `null`, a string, or any other JSON value (kept verbatim). */
  datatype Value = Null | Str(s: string) | Other(json: string)

  /** A JSON object's fields. */
  type Record = map<string, Value>

  /** A whole JSON document: an object, or valid JSON of another kind (array, string, number, null). */
  datatype Doc = Object(fields: Record) | NonObject(json: string)

  /** What a file holds, as `_load_preferences` sees it once the read succeeds: nothing
      but whitespace; text `json.loads` rejects; bytes that are not UTF-8 (an error
      neither handler names); or a document. */
  datatype Content = Blank | Corrupt | Undecodable | Parsed(doc: Doc)

  /** Whether one attempt to open and read the file succeeds or raises an OS error. */
  datatype ReadOutcome = ReadOk | ReadFails

  /** How one call of `_save_preferences` is treated by the file system: every step
      succeeds, or opening the temporary file, writing it, or renaming it raises an OS error. */
  datatype WriteFault = NoFault | OpenFails(msg: string) | WriteFails(msg: string) | RenameFails(msg: string)

  /** How the file system treats one call of `_load_preferences`: its read, the first
      write of the default record, and the second write the error handler makes when the
      first one was the missing-file write and failed. */
  datatype LoadIo = LoadIo(read: ReadOutcome, first: WriteFault, retry: WriteFault)

  /** `os.name == 'nt'` selects the remove-then-rename branch. */
  datatype Platform = Posix | Windows

  /** `{"preferred_location_id": None}` */
  const DefaultRecord: Record := map[PreferredKey := Null]

  /** Python's f-string rendering of a value in the verification error. */
  function Show(v: Value): string {
    match v
    case Null => "None"
    case Str(s) => s
    case Other(json) => json
  }

  /** The text of the error `set_preferred_location_id` raises when the read-back disagrees. */
  function MismatchMessage(id: string, got: Value): string {
    "Failed to save preferred location. Expected: " + id + ", Got: " + Show(got)
  }

  /** The file system after `_save_preferences(prefs)`: on success the target holds the
      record; on failure the target is as before, except that on Windows a failed rename
      comes after the target was deleted. In every case no temporary file remains. */
  function Saved(files: map<Path, Content>, prefs: Record, fault: WriteFault, platform: Platform): map<Path, Content> {
    match fault
    case NoFault => (files - {TempFile})[PreferencesFile := Parsed(Object(prefs))]
    case RenameFails(_) => if platform == Windows then files - {TempFile, PreferencesFile} else files - {TempFile}
    case _ => files - {TempFile}
  }

  /** What `_save_preferences` returns or raises. */
  function SaveStatus(fault: WriteFault): Status {
    if fault.NoFault? then Pass else Fail(fault.msg)
  }

  /** The document `_load_preferences` returns; it never raises. Only a parsed file
      that was read without error gives anything but the default record. */
  function LoadResult(files: map<Path, Content>, read: ReadOutcome): Doc {
    if PreferencesFile in files && read == ReadOk && files[PreferencesFile].Parsed? then files[PreferencesFile].doc
    else Object(DefaultRecord)
  }

  /** The file system after `_load_preferences`. A missing file gets the default record
      written, and once more by the error handler if that write failed. A read that
      raises or a corrupt file gets one best-effort write of the default. A blank,
      undecodable or parsed file is left alone. */
  function AfterLoad(files: map<Path, Content>, io: LoadIo, platform: Platform): map<Path, Content> {
    if PreferencesFile !in files then
      var once := Saved(files, DefaultRecord, io.first, platform);
      if io.first.NoFault? then once else Saved(once, DefaultRecord, io.retry, platform)
    else if io.read == ReadFails || files[PreferencesFile] == Corrupt then
      Saved(files, DefaultRecord, io.first, platform)
    else files
  }

  /** What `get_preferred_location_id` returns for a loaded document: the key's value, or
      `None` when it is absent; `.get` on a document that is not an object raises. */
  function PreferredOf(doc: Doc): Result<Value> {
    match doc
    case Object(fields) => Ok(if PreferredKey in fields then fields[PreferredKey] else Null)
    case NonObject(_) => Err(NotAnObjectMessage)
  }

  /** The preferences file and its neighbours. */
  class PreferenceStore {
    var files: map<Path, Content>

    constructor (files: map<Path, Content>)
      ensures this.files == files
    {
      this.files := files;
    }

    /** `_save_preferences`: write the temporary file, on Windows delete the target,
        rename the temporary file over the target; on failure delete the temporary
        file and re-raise. */
    method SavePreferences(prefs: Record, fault: WriteFault, platform: Platform) returns (st: Status)
      modifies this
      ensures files == Saved(old(files), prefs, fault, platform)
      ensures st == SaveStatus(fault)
    {
      var error: Option<string> := None;
      if fault.OpenFails? {
        error := Some(fault.msg);
      } else {
        files := files[TempFile := if fault.WriteFails? then Corrupt else Parsed(Object(prefs))];
        if fault.WriteFails? {
          error := Some(fault.msg);
        } else {
          if platform == Windows && PreferencesFile in files {
            files := files - {PreferencesFile};
          }
          if fault.RenameFails? {
            error := Some(fault.msg);
          } else {
            files := (files - {TempFile})[PreferencesFile := files[TempFile]];
          }
        }
      }
      if error.Some? {
        if TempFile in files {
          files := files - {TempFile};
        }
        return Fail(error.value);
      }
      st := Pass;
    }

    /** `_load_preferences`. */
    method LoadPreferences(io: LoadIo, platform: Platform) returns (doc: Doc)
      modifies this
      ensures doc == LoadResult(old(files), io.read)
      ensures files == AfterLoad(old(files), io, platform)
    {
      if PreferencesFile in files {
        if io.read == ReadFails {
          // The JSON/OS error handler: rewrite the default, discarding any failure.
          var ignored := SavePreferences(DefaultRecord, io.first, platform);
          return Object(DefaultRecord);
        }
        match files[PreferencesFile]
        case Parsed(d) =>
          return d;
        case Blank =>
          return Object(DefaultRecord);
        case Corrupt =>
          // The JSON/OS error handler, as for a failed read.
          var ignored := SavePreferences(DefaultRecord, io.first, platform);
          return Object(DefaultRecord);
        case Undecodable =>
          // The catch-all handler: no rewrite.
          return Object(DefaultRecord);
      } else {
        var st := SavePreferences(DefaultRecord, io.first, platform);
        if st.Fail? {
          // The save's OS error reaches the JSON/OS error handler, which saves once more.
          var ignored := SavePreferences(DefaultRecord, io.retry, platform);
        }
        return Object(DefaultRecord);
      }
    }

    /** `get_preferred_location_id`. */
    method GetPreferredLocationId(io: LoadIo, platform: Platform) returns (r: Result<Value>)
      modifies this
      ensures r == PreferredOf(LoadResult(old(files), io.read))
      ensures files == AfterLoad(old(files), io, platform)
    {
      var doc := LoadPreferences(io, platform);
      if doc.NonObject? {
        return Err(NotAnObjectMessage);
      }
      r := Ok(if PreferredKey in doc.fields then doc.fields[PreferredKey] else Null);
    }

    /** `set_preferred_location_id`: load (`before`), replace one key, save the whole
        record (`write`), then reload (`after`) and compare. A failed save is re-raised.
        After a successful save the read-back disagrees exactly when the reload's read
        raises: that reload yields the default record, writes it over the record just
        saved (best effort), and the call raises with "Got: None". */
    method SetPreferredLocationId(id: string, before: LoadIo, write: WriteFault, after: LoadIo, platform: Platform)
      returns (st: Status)
      modifies this
      ensures LoadResult(old(files), before.read).NonObject? ==>
        st == Fail(NotAnObjectMessage) && files == AfterLoad(old(files), before, platform)
      ensures LoadResult(old(files), before.read).Object? ==>
        var updated := LoadResult(old(files), before.read).fields[PreferredKey := Str(id)];
        var saved := Saved(AfterLoad(old(files), before, platform), updated, write, platform);
        if !write.NoFault? then
          st == Fail(write.msg) && files == saved
        else
          files == AfterLoad(saved, after, platform) &&
          st == (if after.read == ReadOk then Pass else Fail(MismatchMessage(id, Null)))
      ensures st.Pass? ==> PreferredOf(LoadResult(files, ReadOk)) == Ok(Str(id))
      ensures st.Pass? ==> forall k :: k != PreferredKey && k in LoadResult(old(files), before.read).fields ==>
        k in LoadResult(files, ReadOk).fields &&
        LoadResult(files, ReadOk).fields[k] == LoadResult(old(files), before.read).fields[k]
    {
      var prefs := LoadPreferences(before, platform);
      if prefs.NonObject? {
        return Fail(NotAnObjectMessage);
      }
      var updated := prefs.fields[PreferredKey := Str(id)];
      st := SavePreferences(updated, write, platform);
      if st.Fail? {
        return;
      }
      var reloaded := LoadPreferences(after, platform);
      if reloaded.NonObject? {
        return Fail(NotAnObjectMessage);
      }
      var savedId := if PreferredKey in reloaded.fields then reloaded.fields[PreferredKey] else Null;
      if savedId != Str(id) {
        st := Fail(MismatchMessage(id, savedId));
      }
    }
  }

  /** A successful save followed by a load whose read succeeds returns the saved
      record, every key included, and that load writes nothing. */
  lemma SaveThenLoadRoundTrips(files: map<Path, Content>, prefs: Record, io: LoadIo, platform: Platform)
    ensures LoadResult(Saved(files, prefs, NoFault, platform), ReadOk) == Object(prefs)
    ensures io.read == ReadOk ==>
      AfterLoad(Saved(files, prefs, NoFault, platform), io, platform) == Saved(files, prefs, NoFault, platform)
  {
  }

  /** A save touches only the target and the temporary file, and never leaves the latter behind. */
  lemma SaveTouchesOnlyItsPaths(files: map<Path, Content>, prefs: Record, fault: WriteFault, platform: Platform, p: Path)
    requires p != PreferencesFile && p != TempFile
    ensures p in Saved(files, prefs, fault, platform) <==> p in files
    ensures p in files ==> Saved(files, prefs, fault, platform)[p] == files[p]
    ensures TempFile !in Saved(files, prefs, fault, platform)
  {
  }

  /** After a save the target holds the new record or exactly what it held before;
      it disappears only when a rename fails on Windows after the old target was deleted. */
  lemma SaveReplacesWhole(files: map<Path, Content>, prefs: Record, fault: WriteFault, platform: Platform)
    ensures var after := Saved(files, prefs, fault, platform);
      PreferencesFile in after ==>
        after[PreferencesFile] == Parsed(Object(prefs)) ||
        (PreferencesFile in files && after[PreferencesFile] == files[PreferencesFile])
    ensures PreferencesFile !in Saved(files, prefs, fault, platform) <==>
      (PreferencesFile !in files && !fault.NoFault?) || (platform == Windows && fault.RenameFails?)
    ensures !fault.NoFault? && PreferencesFile in Saved(files, prefs, fault, platform) ==>
      PreferencesFile in files && Saved(files, prefs, fault, platform)[PreferencesFile] == files[PreferencesFile]
  {
  }

  /** Loading never raises: a missing, blank, corrupt or undecodable file, or a read that
      raises, yields the default record. A blank or undecodable file that is read without
      error is not rewritten. */
  lemma LoadFallsBackToDefault(files: map<Path, Content>, io: LoadIo, platform: Platform)
    ensures PreferencesFile !in files || !files[PreferencesFile].Parsed? || io.read == ReadFails ==>
      LoadResult(files, io.read) == Object(DefaultRecord)
    ensures PreferencesFile in files && io.read == ReadOk && files[PreferencesFile] != Corrupt ==>
      AfterLoad(files, io, platform) == files
  {
  }

  /** A missing file is created holding the default record unless both the first write
      and the handler's second write fail; with both failing it stays missing. */
  lemma MissingFileIsCreated(files: map<Path, Content>, io: LoadIo, platform: Platform)
    requires PreferencesFile !in files
    ensures PreferencesFile in AfterLoad(files, io, platform) <==> io.first.NoFault? || io.retry.NoFault?
    ensures PreferencesFile in AfterLoad(files, io, platform) ==>
      AfterLoad(files, io, platform)[PreferencesFile] == Parsed(Object(DefaultRecord))
  {
  }

  /** A read that raises, followed by a successful write, replaces whatever the file held,
      a valid record included, with the default record. */
  lemma FailedReadOverwritesRecord(files: map<Path, Content>, io: LoadIo, platform: Platform)
    requires PreferencesFile in files && io.read == ReadFails && io.first.NoFault?
    ensures AfterLoad(files, io, platform)[PreferencesFile] == Parsed(Object(DefaultRecord))
  {
  }

  /** When the first load reads without error, a second load returns what the first
      returned, whatever the first wrote or failed to write. */
  lemma LoadIsStable(files: map<Path, Content>, io: LoadIo, platform: Platform)
    ensures io.read == ReadOk ==>
      LoadResult(AfterLoad(files, io, platform), ReadOk) == LoadResult(files, ReadOk)
  {
  }
}
