/**
 Replacing the state file and updating it, as one process sees them (internal/atomicfile/atomicfile.go,
 internal/state/store.go), with every external step free to fail.
 */
module AtomicFile {
  import opened Common
  import opened RukState
  import opened Transitions
  import opened Decode
  import opened StateStore

  datatype Fault = NoFault | OpenFails | WriteFails | SecureFails | RenameFails

  /** What Read makes of the file: a missing one is the empty document, anything but a whole valid
      document is an error. */
  ghost function Readable(file: Option<Document>): Option<State> {
    match file
    case None => Some(EMPTY_STATE)
    case Some(Torn) => None
    case Some(Whole(s)) => if ValidState(s) then Some(s) else None
  }

  class Directory {
    var file: Option<Document>
    var temporaries: map<nat, Document>

    constructor ()
      ensures file == None && temporaries == map[]
    {
      file, temporaries := None, map[];
    }

    method Read() returns (decoded: Option<State>)
      ensures decoded == Readable(file)
    {
      if file.None? { return Some(EMPTY_STATE); }
      if file.value.Torn? { return None; }
      var valid := CheckState(file.value.state);
      decoded := if valid then Some(file.value.state) else None;
    }

    /** Success means the new contents are in place; after any failure the file is as it was. Only
        this process's temporary is ever touched, and success leaves none behind. */
    method Replace(pid: nat, data: State, fault: Fault, removable: bool) returns (ok: bool)
      modifies this
      ensures ok <==> fault.NoFault?
      ensures file == if ok then Some(Whole(data)) else old(file)
      ensures temporaries - {pid} == old(temporaries) - {pid}
      ensures ok || removable ==> pid !in temporaries
    {
      var committed := false;
      if !fault.OpenFails? {
        temporaries := temporaries[pid := Torn];
        if !fault.WriteFails? {
          temporaries := temporaries[pid := Whole(data)];
          if !fault.SecureFails? && !fault.RenameFails? {
            file, temporaries := Some(temporaries[pid]), temporaries - {pid};
            committed := true;
          }
        }
      }
      if !committed && removable { temporaries := temporaries - {pid}; }
      ok := committed;
    }

    /** Read, mutate, validate and replace, under the state lock. */
    method Update(pid: nat, mutate: State -> Result<State, Refusal>, fault: Fault, removable: bool) returns (ok: bool)
      modifies this
      ensures var current := Readable(old(file));
              && (ok <==> current.Some? && Updated(current.value, mutate).Ok? && fault.NoFault?)
              && file == if ok then Some(Whole(Updated(current.value, mutate).value)) else old(file)
      ensures ok ==> Readable(file) == Some(Updated(Readable(old(file)).value, mutate).value)
      ensures temporaries - {pid} == old(temporaries) - {pid}
    {
      var current := Read();
      if current.None? { return false; }
      var next := mutate(current.value);
      if next.Err? { return false; }
      var valid := CheckState(next.value);
      if !valid { return false; }
      ok := Replace(pid, next.value, fault, removable);
    }
  }
}
