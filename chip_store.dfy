/** The connection-chip store of `src/stores/chipStore.ts`. */
module ChipStore {
  import opened Optional

  /** The store's data fields, as one value. */
  datatype ChipState = ChipState(com: Option<string>, baudRate: Option<real>, isConnected: bool)

  /** The store at creation, which `clear` restores. */
  const InitialChip: ChipState := ChipState(None, None, false)

  /** The store; each setter shallow-merges one field into the state. */
  class Chip {
    var com: Option<string>
    var baudRate: Option<real>
    var isConnected: bool

    function Snapshot(): ChipState
      reads this
    {
      ChipState(com, baudRate, isConnected)
    }

    constructor ()
      ensures Snapshot() == InitialChip
    {
      com, baudRate, isConnected := None, None, false;
    }

    method SetCom(c: string)
      modifies this
      ensures Snapshot() == old(Snapshot()).(com := Some(c))
    {
      com := Some(c);
    }

    method SetBaudRate(b: real)
      modifies this
      ensures Snapshot() == old(Snapshot()).(baudRate := Some(b))
    {
      baudRate := Some(b);
    }

    method SetIsConnected(b: bool)
      modifies this
      ensures Snapshot() == old(Snapshot()).(isConnected := b)
    {
      isConnected := b;
    }

    /** `clear`: the result does not depend on the prior state, so clearing twice is clearing once. */
    method Clear()
      modifies this
      ensures Snapshot() == InitialChip
    {
      com, baudRate, isConnected := None, None, false;
    }
  }
}
