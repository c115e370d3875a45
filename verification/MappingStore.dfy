// The mapping file, replaced whole (codexbridge/thread_mapping_store.go).

module MappingStore {
  import opened Options
  import opened Strings
  import opened ThreadMapping

  /** A mapping file's content: a record, or something that is none. */
  datatype Content = Stored(record: Record) | Corrupt

  /** The mapping files by instance id, and the temporary files left lying about. */
  datatype Disk = Disk(files: map<string, Content>, temps: nat)

  datatype Stage = MakeDir | CreateTemp | WriteTemp | SyncTemp | CloseTemp | Rename | Chmod

  /** What stops a save: nothing, an error at a stage, or the process being killed at one. */
  datatype Fault = NoFault | FailsAt(stage: Stage) | KilledAt(stage: Stage)

  datatype Saved = Ok | Error | Killed

  predicate ValidRecord(r: Record) {
    && r.instanceID != "" && r.codexID != ""
    && r.createdAt > 0 && r.lastUsedAt > 0 && r.createdAt <= r.lastUsedAt
    && Trim(r.instanceID) == r.instanceID && Trim(r.codexID) == r.codexID
  }

  /** Whether an instance id names a file in the mapping directory. */
  predicate ValidName(instanceID: string) {
    Trim(instanceID) != "" && '/' !in Trim(instanceID)
  }

  predicate Replaced(fault: Fault) {
    fault.NoFault? || fault.stage.Chmod?
  }

  /** Save, as an outcome and what it leaves on disk. */
  function Save(disk: Disk, r: Record, fault: Fault): (Disk, Saved) {
    if !ValidRecord(r) || !ValidName(r.instanceID) then (disk, Error)
    else
      var files := if Replaced(fault) then disk.files[Trim(r.instanceID) := Stored(r)] else disk.files;
      match fault
      case NoFault => (Disk(files, disk.temps), Ok)
      case FailsAt(_) => (Disk(files, disk.temps), Error)
      case KilledAt(stage) =>
        (Disk(files, if stage.MakeDir? || stage.CreateTemp? || stage.Chmod? then disk.temps else disk.temps + 1), Killed)
  }

  /** Load: a record, none, or an error. */
  function Load(disk: Disk, instanceID: string, readFails: bool): Option<Option<Record>> {
    if !ValidName(instanceID) then None
    else if Trim(instanceID) !in disk.files then (if readFails then None else Some(None))
    else if readFails then None
    else
      match disk.files[Trim(instanceID)]
      case Corrupt => None
      case Stored(r) => if ValidRecord(r) && r.instanceID == instanceID then Some(Some(r)) else None
  }

  class Store {
    var files: map<string, Content>
    var temps: nat

    ghost function State(): Disk
      reads this
    {
      Disk(files, temps)
    }

    constructor (disk: Disk)
      ensures State() == disk
    {
      files, temps := disk.files, disk.temps;
    }

    /** The temporary file is closed and removed after an error. */
    method CleanUp()
      requires temps > 0
      modifies this`temps
      ensures temps == old(temps) - 1
    {
      temps := temps - 1;
    }

    method SaveRecord(r: Record, fault: Fault) returns (saved: Saved)
      modifies this
      ensures State() == Save(old(State()), r, fault).0 && saved == Save(old(State()), r, fault).1
    {
      if !ValidRecord(r) || !ValidName(r.instanceID) {
        return Error;
      }
      if fault == KilledAt(MakeDir) || fault == KilledAt(CreateTemp) {
        return Killed;
      }
      if fault == FailsAt(MakeDir) || fault == FailsAt(CreateTemp) {
        return Error;
      }
      temps := temps + 1;
      if fault.KilledAt? && (fault.stage.WriteTemp? || fault.stage.SyncTemp? || fault.stage.CloseTemp? || fault.stage.Rename?) {
        return Killed;
      }
      if fault.FailsAt? && (fault.stage.WriteTemp? || fault.stage.SyncTemp? || fault.stage.CloseTemp? || fault.stage.Rename?) {
        CleanUp();
        return Error;
      }
      // The rename: the temporary file becomes the mapping file, whole.
      files := files[Trim(r.instanceID) := Stored(r)];
      temps := temps - 1;
      if fault == KilledAt(Chmod) {
        return Killed;
      }
      if fault == FailsAt(Chmod) {
        return Error;
      }
      return Ok;
    }

    method LoadRecord(instanceID: string, readFails: bool) returns (loaded: Option<Option<Record>>)
      ensures loaded == Load(State(), instanceID, readFails)
    {
      if !ValidName(instanceID) {
        return None;
      }
      if readFails {
        return None;
      }
      if Trim(instanceID) !in files {
        return Some(None);
      }
      match files[Trim(instanceID)] {
        case Corrupt => return None;
        case Stored(r) =>
          if !ValidRecord(r) || r.instanceID != instanceID {
            return None;
          }
          return Some(Some(r));
      }
    }
  }

  /** A save is atomic: whatever stops it, the mapping file holds either what it held or the
      whole new record -- the new one exactly when the rename was reached -- other files are
      untouched, a success is loaded back, and a temporary file stays behind exactly when the
      process is killed between making it and renaming it. */
  lemma {:induction false} SaveIsAtomic(disk: Disk, r: Record, fault: Fault)
    ensures
      var (disk', saved) := Save(disk, r, fault);
      var fit := ValidRecord(r) && ValidName(r.instanceID);
      var renamed := fit && (fault.NoFault? || fault in {FailsAt(Chmod), KilledAt(Chmod)});
      var left := fit && fault in {KilledAt(WriteTemp), KilledAt(SyncTemp), KilledAt(CloseTemp), KilledAt(Rename)};
      && (forall name | name != Trim(r.instanceID) ::
            (name in disk'.files <==> name in disk.files) && (name in disk.files ==> disk'.files[name] == disk.files[name]))
      && (renamed ==> Trim(r.instanceID) in disk'.files && disk'.files[Trim(r.instanceID)] == Stored(r))
      && (!renamed ==> disk'.files == disk.files)
      && disk'.temps == disk.temps + (if left then 1 else 0)
      && (saved.Ok? <==> fit && fault.NoFault?) && (saved.Killed? <==> fit && fault.KilledAt?)
      && (saved.Ok? ==> Load(disk', r.instanceID, false) == Some(Some(r)))
  {
  }
}
