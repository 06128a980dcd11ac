/** The few asyn and EPICS notions the ISEG VDS driver speaks in: status codes,
    32-bit words, and the outcome of asynPortDriver::getAddress. */
module Asyn {

  /** asynStatus as returned by every asyn entry point. */
  datatype Status = Success | Timeout | Overflow | Error | Disconnected | Disabled

  /** epicsUInt32: the width of a VME D32 access and of a register offset. */
  newtype Word = x: int | 0 <= x < 0x1_0000_0000

  datatype Option<T> = None | Some(value: T)

  /** The driver is created with maxAddr = 8: one asyn address per channel. */
  const MaxAddr: int := 8

  /** Addition of two epicsUInt32 values, wrapping modulo 2^32 as C++ does. */
  function Add32(a: Word, b: Word): (r: Word)
    ensures a as int + b as int < 0x1_0000_0000 ==> r as int == a as int + b as int
    ensures a as int + b as int >= 0x1_0000_0000 ==> r as int == a as int + b as int - 0x1_0000_0000
  {
    ((a as int + b as int) % 0x1_0000_0000) as Word
  }

  /** What getAddress hands back to an entry point: the asyn address of the
      request, or the failing status the entry point must return unchanged. */
  datatype Address = Address(addr: int) | AddressError(status: Status) {
    /** getAddress only succeeds for addresses below maxAddr, and only fails with
        a status other than asynSuccess. */
    predicate Valid() {
      match this
      case Address(a) => 0 <= a < MaxAddr
      case AddressError(s) => s != Success
    }
  }
}
