/**
 * The installer log hook: an append-only, insertion-ordered sequence of
 * alignment events, mirrored into a key-value store under one key, with
 * load on mount, reset and export. JSON text is abstracted as the entry
 * sequence it encodes; the position lookup and the store's writes are
 * success/failure inputs.
 */
module UseInstallerLog {
  import opened JsRuntime
  import opened Feedback

  datatype LogEntry = LogEntry(
    timestamp: string,
    location: Position,
    heading: int,
    azimuth: int,
    satellite: string)

  const LogKey: string := "installerLog"
  const ExportFileName: string := "installer-log.json"

  /** The key-value store, each value holding the log it encodes. */
  type Store = map<string, seq<LogEntry>>

  /** The log a mount over `store` starts from: the stored sequence, or empty when the key is absent. */
  function StoredLog(store: Store): (log: seq<LogEntry>)
    ensures LogKey !in store ==> log == []
    ensures LogKey in store ==> log == store[LogKey]
  {
    if LogKey in store then store[LogKey] else []
  }

  /** Storing a log under the key and mounting again restores exactly that log. */
  lemma ReloadRestores(store: Store, log: seq<LogEntry>)
    ensures StoredLog(store[LogKey := log]) == log
    ensures StoredLog(store - {LogKey}) == []
  {
  }

  class InstallerLog {
    var log: seq<LogEntry>
    var store: Store

    /** The in-memory log is what the store would restore. */
    predicate Persisted()
      reads this
    {
      StoredLog(store) == log
    }

    /** Mount: the log starts empty over whatever the store already holds. */
    constructor(persisted: Store)
      ensures log == [] && store == persisted
    {
      log := [];
      store := persisted;
    }

    /** The load effect: a stored value replaces the log, an absent one leaves it. */
    method Load()
      modifies this`log
      ensures log == if LogKey in store then store[LogKey] else old(log)
      ensures old(log) == [] ==> log == StoredLog(store)
      ensures old(log) == [] || old(Persisted()) ==> Persisted()
    {
      if LogKey in store {
        log := store[LogKey];
      }
    }

    /**
     * `addLogEntry`: with a position, the entry joins the end of the log
     * and then the whole log is written under the key; a failed lookup
     * changes nothing, and a failed write keeps the in-memory append.
     */
    method AddLogEntry(heading: int, azimuth: int, satellite: string,
                       position: Option<Position>, timestamp: string, writeOk: bool)
      modifies this
      ensures position.None? ==> log == old(log) && store == old(store)
      ensures position.Some? ==>
        log == old(log) + [LogEntry(timestamp, position.value, heading, azimuth, satellite)]
      ensures position.Some? && writeOk ==> store == old(store)[LogKey := log]
      ensures position.Some? && !writeOk ==> store == old(store)
      ensures position.Some? && writeOk ==> Persisted()
      ensures position.None? && old(Persisted()) ==> Persisted()
    {
      if position.None? {
        return;
      }
      var entry := LogEntry(timestamp, position.value, heading, azimuth, satellite);
      var updated := log + [entry];
      log := updated;
      if writeOk {
        store := store[LogKey := updated];
      }
    }

    /** `resetLog`: the log empties, then the key is removed. */
    method ResetLog(removeOk: bool)
      modifies this
      ensures log == []
      ensures store == if removeOk then old(store) - {LogKey} else old(store)
      ensures removeOk ==> Persisted()
    {
      log := [];
      if removeOk {
        store := store - {LogKey};
      }
    }

    /** `exportLogAsJson`: the file path written and the whole log, in order, as its content. */
    method ExportLogAsJson(documentDirectory: string) returns (path: string, content: seq<LogEntry>)
      ensures path == documentDirectory + ExportFileName
      ensures content == log
    {
      path := documentDirectory + ExportFileName;
      content := log;
    }
  }
}
