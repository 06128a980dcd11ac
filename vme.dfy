/** The VME master the driver talks to. Only what the driver relies on is
    modelled: an A16/D32 register read and write at a base address and an
    offset, either of which may fail with a VmeException. */
module Vme {
  import opened Asyn

  class VmeMaster {
    /** The word held at every (base address, offset) of the A16 space. */
    var regs: imap<(int, Word), Word>

    /** Every register of the bus has a value. */
    ghost predicate Valid()
      reads this
    {
      forall a :: a in regs
    }

    constructor (contents: imap<(int, Word), Word>)
      requires forall a :: a in contents
      ensures Valid() && regs == contents
    {
      regs := contents;
    }

    /** readRegisterA16D32: ok is false when the access raises a VmeException,
        which the parameter fault stands for. */
    method ReadRegisterA16D32(base: int, offset: Word, fault: bool) returns (ok: bool, data: Word)
      requires Valid()
      ensures ok == !fault
      ensures ok ==> data == regs[(base, offset)]
    {
      ok := !fault;
      data := if ok then regs[(base, offset)] else 0;
    }

    /** writeRegisterA16D32: stores value at exactly one register. When the
        access raises a VmeException nothing is promised about that register
        (the write may or may not have reached the module), but no other
        register changes. */
    method WriteRegisterA16D32(base: int, offset: Word, value: Word, fault: bool) returns (ok: bool)
      requires Valid()
      modifies this
      ensures Valid()
      ensures ok == !fault
      ensures ok ==> regs == old(regs)[(base, offset) := value]
      ensures !ok ==> regs == old(regs)[(base, offset) := regs[(base, offset)]]
    {
      ok := !fault;
      if ok {
        regs := regs[(base, offset) := value];
      }
    }
  }
}
