/** The file-backed configuration store of 10bis-automation/utils.js:
    `readConfig`, `writeConfig` (which copies the old file to
    `config.json.backup` first) and `updateConfig`.

    The two files are fields of a class; JSON (de)serialisation is not
    modelled (the file holds a map of strings), and a failure of the disk is
    an input that says which step fails. `fs.copy` removes an existing
    backup before it copies and `fs.writeJson` truncates the file before it
    writes, so a failed step says what its target file is left holding. */
module Utils {
  import opened Js
  import opened Config

  /** Which file-system step fails during a write, if any. A failed copy
      leaves config.json.backup holding `leftoverBackup`: the old backup
      when nothing was touched, nothing when it was removed, or a partial
      copy. A failed write leaves config.json holding `leftover`: the old
      contents when the file could not be opened, or whatever the
      interrupted write left behind. */
  datatype DiskFault =
    | NoFault
    | CopyFails(message: string, leftoverBackup: Option<Config>)
    | WriteFails(message: string, leftover: Option<Config>)

  const ConfigFileMissing := "Config file does not exist"

  class ConfigStore {
    /** config.json; None when the file does not exist. */
    var current: Option<Config>
    /** config.json.backup; None when it does not exist. */
    var backup: Option<Config>

    constructor (file: Option<Config>, backupFile: Option<Config>)
      ensures current == file && backup == backupFile
    {
      current := file;
      backup := backupFile;
    }

    /** `readConfig()`: the file's contents, or an error when it is missing. */
    method ReadConfig() returns (r: Result<Config, string>)
      ensures r.Ok? <==> current.Some?
      ensures r.Ok? ==> r.value == current.value
      ensures r.Err? ==> r.error == ConfigFileMissing
    {
      if current.None? {
        return Err(ConfigFileMissing);
      }
      return Ok(current.value);
    }

    /** `writeConfig(config)`: when the file exists it is copied to the
        backup first; a failed copy stops the write, leaves config.json
        alone and the backup as the fault says. A failed write leaves the
        file as the fault says, with the previous version already in the
        backup. */
    method WriteConfig(config: Config, fault: DiskFault) returns (r: Outcome<string>)
      modifies this
      ensures old(current).Some? && fault.CopyFails? ==>
        r == Fail(fault.message) && current == old(current) && backup == fault.leftoverBackup
      ensures fault.WriteFails? ==>
        r == Fail(fault.message) && current == fault.leftover
        && backup == (if old(current).Some? then old(current) else old(backup))
      ensures fault.NoFault? || (fault.CopyFails? && old(current).None?) ==>
        r == Pass && current == Some(config)
        && backup == (if old(current).Some? then old(current) else old(backup))
      // the previous version is never lost: whenever the file changes,
      // written or damaged, the backup holds what it held before
      ensures old(current).Some? && current != old(current) ==> backup == old(current)
    {
      if current.Some? {
        if fault.CopyFails? {
          backup := fault.leftoverBackup;
          return Fail(fault.message);
        }
        backup := current;
      }
      if fault.WriteFails? {
        current := fault.leftover;
        return Fail(fault.message);
      }
      current := Some(config);
      return Pass;
    }

    /** `updateConfig(updates)`: reads the file, writes `{...current, ...updates}`
        (backing the old file up first) and returns the merged map. A failed
        copy leaves config.json alone and the backup as the fault says; a
        failed write leaves the old file in the backup and config.json
        holding the fault's leftover. */
    method UpdateConfig(updates: Config, fault: DiskFault) returns (r: Result<Config, string>)
      modifies this
      ensures old(current).None? ==>
        r == Err(ConfigFileMissing) && current == old(current) && backup == old(backup)
      ensures old(current).Some? && fault.CopyFails? ==>
        r == Err(fault.message) && current == old(current) && backup == fault.leftoverBackup
      ensures old(current).Some? && fault.WriteFails? ==>
        r == Err(fault.message) && current == fault.leftover && backup == old(current)
      ensures old(current).Some? && fault.NoFault? ==>
        && r == Ok(Merge(old(current).value, updates))
        && current == Some(r.value)
        && backup == old(current)
    {
      var read := ReadConfig();
      if read.Err? {
        return Err(read.error);
      }
      var merged := Merge(read.value, updates);
      var written := WriteConfig(merged, fault);
      if written.Fail? {
        return Err(written.error);
      }
      return Ok(merged);
    }
  }

  /** The store round trip of 10bis-automation/test.js: a write followed by a
      read returns what was written, and a later `updateConfig({Amount: '200'})`
      leaves Amount at '200' and the other fields as written. */
  method WriteReadUpdate(store: ConfigStore, config: Config)
    returns (read: Result<Config, string>, updated: Result<Config, string>)
    modifies store
    ensures read == Ok(config)
    ensures updated.Ok? && Amount in updated.value && updated.value[Amount] == "200"
    ensures forall k :: k in config && k != Amount ==> k in updated.value && updated.value[k] == config[k]
    ensures store.current == Some(updated.value) && store.backup == Some(config)
  {
    var w := store.WriteConfig(config, NoFault);
    read := store.ReadConfig();
    updated := store.UpdateConfig(map[Amount := "200"], NoFault);
  }
}
