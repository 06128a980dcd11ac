/** The drvAsynIsegVds port driver: the command tables it builds, the write
    gating of read-only parameters, and its four asyn entry points. */
module IsegVdsDriver {
  import opened Asyn
  import opened IsegParams
  import opened RegisterMap
  import opened Vme

  /** The gate of writeUInt32Digital: reasons it accepts without touching the
      bus. They are the two status parameters, and only those. */
  predicate ReadOnlyDigital(reason: int): (b: bool)
    ensures b <==> FromIndex(reason) == Some(ModStatus) || FromIndex(reason) == Some(ChanStatus)
  {
    reason == P_ModStatus || reason == P_ChanStatus
  }

  /** The gate of writeFloat64: reasons it accepts without touching the bus.
      They are the limits, supplies and temperature of the module and the
      measured voltage and current of a channel, and only those. */
  predicate ReadOnlyFloat(reason: int): (b: bool)
    ensures b <==> (FromIndex(reason).Some? &&
      FromIndex(reason).value in {VMax, IMax, SupplyP5, SupplyP12, SupplyN12, Temperature, ChanVmom, ChanImom})
  {
    || reason == P_VMax || reason == P_IMax
    || reason == P_SupplyP5 || reason == P_SupplyP12 || reason == P_SupplyN12
    || reason == P_Temperature || reason == P_ChanVmom || reason == P_ChanImom
  }

  /** How far a request gets: it finishes with a status before reaching the bus,
      or it accesses the register at offset on behalf of asyn address addr. */
  datatype Plan = Finish(status: Status) | Access(addr: int, offset: Word)

  /** What every entry point does once past its gating: a failed getAddress
      returns its status, a reason in neither table returns asynError, and
      anything else accesses the resolved register. A request that stops here
      never reports success. */
  function AccessPlan(mod: map<int, Word>, chan: map<int, Word>, reason: int, address: Address): (r: Plan)
    requires address.Valid()
    ensures r.Finish? ==> r.status != Success
    ensures address.AddressError? ==> r == Finish(address.status)
    ensures r.Access? <==> address.Address? && Resolve(mod, chan, reason, address.addr).Some?
    ensures r.Access? ==> r.addr == address.addr && Resolve(mod, chan, reason, r.addr) == Some(r.offset)
  {
    if address.AddressError? then Finish(address.status)
    else match Resolve(mod, chan, reason, address.addr)
      case None => Finish(Error)
      case Some(offset) => Access(address.addr, offset)
  }

  /** writeUInt32Digital: it finishes with success before getAddress is asked
      exactly for its read-only parameters; everything else goes on as the
      other entry points do. */
  function DigitalWritePlan(mod: map<int, Word>, chan: map<int, Word>, reason: int, address: Address): (r: Plan)
    requires address.Valid()
    ensures r == Finish(Success) <==> ReadOnlyDigital(reason)
    ensures !ReadOnlyDigital(reason) ==> r == AccessPlan(mod, chan, reason, address)
  {
    if ReadOnlyDigital(reason) then Finish(Success) else AccessPlan(mod, chan, reason, address)
  }

  /** writeFloat64: it finishes with success before getAddress is asked exactly
      for its read-only parameters; everything else goes on as the other entry
      points do. */
  function FloatWritePlan(mod: map<int, Word>, chan: map<int, Word>, reason: int, address: Address): (r: Plan)
    requires address.Valid()
    ensures r == Finish(Success) <==> ReadOnlyFloat(reason)
    ensures !ReadOnlyFloat(reason) ==> r == AccessPlan(mod, chan, reason, address)
  {
    if ReadOnlyFloat(reason) then Finish(Success) else AccessPlan(mod, chan, reason, address)
  }

  /** The status an entry point returns after following plan, the bus access
      raising a VmeException exactly when fault holds. The parameter library
      calls that follow a successful access are taken to succeed. */
  function Outcome(plan: Plan, fault: bool): (s: Status)
    ensures s == Success <==> plan == Finish(Success) || (plan.Access? && !fault)
    ensures plan.Access? && fault ==> s == Error
  {
    match plan
    case Finish(s) => s
    case Access(_, _) => if fault then Error else Success
  }

  /** A reason that is none of the driver's parameters never reaches the bus
      and never reports success, through any of the four entry points. */
  lemma UnknownReasonRejected(reason: int, address: Address, fault: bool)
    requires address.Valid() && FromIndex(reason).None?
    ensures var plan := AccessPlan(ModCmds, ChanCmds, reason, address);
      plan.Finish? && Outcome(plan, fault) != Success
    ensures var plan := DigitalWritePlan(ModCmds, ChanCmds, reason, address);
      plan.Finish? && Outcome(plan, fault) != Success
    ensures var plan := FloatWritePlan(ModCmds, ChanCmds, reason, address);
      plan.Finish? && Outcome(plan, fault) != Success
  {
    if address.Address? {
      ResolveKnown(reason, address.addr);
    }
  }

  /** Each write entry point finishes with success without reaching the bus
      exactly for its own read-only parameters, whatever getAddress would say:
      the two status parameters for writeUInt32Digital, the eight measured or
      fixed values for writeFloat64. */
  lemma WriteGates(p: Param, address: Address)
    requires address.Valid()
    ensures DigitalWritePlan(ModCmds, ChanCmds, p.Index(), address) == Finish(Success)
      <==> p == ModStatus || p == ChanStatus
    ensures FloatWritePlan(ModCmds, ChanCmds, p.Index(), address) == Finish(Success)
      <==> p in {VMax, IMax, SupplyP5, SupplyP12, SupplyN12, Temperature, ChanVmom, ChanImom}
  {
    IndexRoundTrip(p, p.Index());
  }

  /** The gates are per interface: a read-only parameter of one interface is
      written to the module through the other one. writeFloat64 stores float
      bits in the status registers, and writeUInt32Digital stores a raw word in
      the registers writeFloat64 refuses to write. */
  lemma GatesArePerInterface(p: Param, addr: int)
    requires 0 <= addr < MaxAddr
    ensures ReadOnlyDigital(p.Index()) ==> FloatWritePlan(ModCmds, ChanCmds, p.Index(), Address(addr)).Access?
    ensures ReadOnlyFloat(p.Index()) ==> DigitalWritePlan(ModCmds, ChanCmds, p.Index(), Address(addr)).Access?
    ensures FloatWritePlan(ModCmds, ChanCmds, P_ModStatus, Address(addr)) == Access(addr, 0x0000)
    ensures DigitalWritePlan(ModCmds, ChanCmds, P_VMax, Address(addr)) == Access(addr, 0x0028)
  {
    ResolveParam(p, addr);
    ResolveParam(ModStatus, addr);
    ResolveParam(VMax, addr);
  }

  /** Every parameter that is not gated reaches its own register through every
      entry point once getAddress succeeds: the module offset for a module
      parameter, the channel block plus offset for a channel parameter. */
  lemma ParamReachesItsRegister(p: Param, addr: int)
    requires 0 <= addr < MaxAddr
    ensures var reg := if p.IsModule() then p.Offset() as int else 0x100 + 0x40 * addr + p.Offset() as int;
      && AccessPlan(ModCmds, ChanCmds, p.Index(), Address(addr)) == Access(addr, reg as Word)
      && (!ReadOnlyDigital(p.Index()) ==> DigitalWritePlan(ModCmds, ChanCmds, p.Index(), Address(addr)) == Access(addr, reg as Word))
      && (!ReadOnlyFloat(p.Index()) ==> FloatWritePlan(ModCmds, ChanCmds, p.Index(), Address(addr)) == Access(addr, reg as Word))
  {
    ResolveParam(p, addr);
    ChanAddrStride(addr);
  }

  /** A write through one (reason, address) pair never changes the register that
      another parameter, or the same channel parameter on another channel, is
      read from. */
  lemma WriteIsolation(regs: imap<(int, Word), Word>, base: int, value: Word,
                                          r1: int, a1: int, r2: int, a2: int)
    requires 0 <= a1 < MaxAddr && 0 <= a2 < MaxAddr
    requires forall a :: a in regs
    requires Resolve(ModCmds, ChanCmds, r1, a1).Some? && Resolve(ModCmds, ChanCmds, r2, a2).Some?
    requires r1 != r2 || (r1 in ChanCmds && a1 != a2)
    ensures var o1 := Resolve(ModCmds, ChanCmds, r1, a1).value;
            var o2 := Resolve(ModCmds, ChanCmds, r2, a2).value;
      regs[(base, o1) := value][(base, o2)] == regs[(base, o2)]
  {
    if Resolve(ModCmds, ChanCmds, r1, a1) == Resolve(ModCmds, ChanCmds, r2, a2) {
      RegistersDistinct(r1, a1, r2, a2);
    }
  }

  /** The port driver object. */
  class IsegVds {
    /** _base: the module's VME base address. */
    const base: int
    /** _vme: null when VmeMaster::getInstance() found no VME master. */
    const vme: VmeMaster?
    /** _modcmds and _chancmds: reason to register offset. */
    var modcmds: map<int, Word>
    var chancmds: map<int, Word>
    /** The parameter library's value of each (asyn address, reason), as the
        32-bit word last read from or written to the module. */
    var params: map<(int, int), Word>

    /** The tables are complete when a VME master was found and empty otherwise. */
    ghost predicate Valid()
      reads this, vme
    {
      if vme == null then modcmds == map[] && chancmds == map[]
      else vme.Valid() && modcmds == ModCmds && chancmds == ChanCmds
    }

    /** The constructor: without a VME master it returns before filling the
        tables; otherwise it inserts every module and channel offset. */
    constructor (base: int, vme: VmeMaster?)
      requires vme != null ==> vme.Valid()
      ensures Valid() && this.base == base && this.vme == vme && params == map[]
      ensures vme != null ==> modcmds == ModCmds && chancmds == ChanCmds
    {
      this.base := base;
      this.vme := vme;
      modcmds := map[];
      chancmds := map[];
      params := map[];
      new;
      if vme != null {
        modcmds := ModuleCommands();
        chancmds := ChannelCommands();
      }
    }

    /** The lookup every entry point repeats: module table first, otherwise the
        channel table plus the channel's base. */
    method FindRegister(reason: int, addr: int) returns (found: bool, vmeAddr: Word)
      requires 0 <= addr < MaxAddr
      ensures found <==> Resolve(modcmds, chancmds, reason, addr).Some?
      ensures found ==> Resolve(modcmds, chancmds, reason, addr) == Some(vmeAddr)
    {
      vmeAddr := 0;
      var offset: Word;
      if reason in modcmds {
        offset := modcmds[reason];
      } else {
        if reason !in chancmds {
          return false, 0;
        }
        offset := chancmds[reason];
        vmeAddr := Add32(vmeAddr, ChanAddr[addr]);
      }
      vmeAddr := Add32(vmeAddr, offset);
      found := true;
    }

    /** readUInt32Digital: reads the resolved register and posts it to the
        parameter library. */
    method ReadUInt32Digital(reason: int, address: Address, fault: bool) returns (status: Status, value: Word)
      requires Valid() && address.Valid()
      modifies this`params
      ensures Valid()
      ensures var plan := AccessPlan(modcmds, chancmds, reason, address);
        && status == Outcome(plan, fault)
        && (plan.Access? && !fault ==>
              && vme != null && value == vme.regs[(base, plan.offset)]
              && params == old(params)[(plan.addr, reason) := value])
        && (!(plan.Access? && !fault) ==> params == old(params))
    {
      if address.AddressError? {
        return address.status, 0;
      }
      var addr := address.addr;
      var found, vmeAddr := FindRegister(reason, addr);
      if !found {
        return Error, 0;
      }
      var ok, data := vme.ReadRegisterA16D32(base, vmeAddr, fault);
      if !ok {
        return Error, 0;
      }
      params := params[(addr, reason) := data];
      value := data;
      status := Success;
    }

    /** writeUInt32Digital: drops writes to read-only parameters, otherwise
        writes value to the resolved register and posts it to the parameter
        library. */
    method WriteUInt32Digital(reason: int, address: Address, value: Word, fault: bool) returns (status: Status)
      requires Valid() && address.Valid()
      modifies this`params, vme
      ensures Valid()
      ensures var plan := DigitalWritePlan(modcmds, chancmds, reason, address);
        && status == Outcome(plan, fault)
        && (plan.Access? && !fault ==>
              && vme != null && vme.regs == old(vme.regs)[(base, plan.offset) := value]
              && params == old(params)[(plan.addr, reason) := value])
        && (plan.Access? && fault ==>
              && params == old(params)
              && vme != null && vme.regs == old(vme.regs)[(base, plan.offset) := vme.regs[(base, plan.offset)]])
        && (plan.Finish? ==>
              && params == old(params)
              && (vme != null ==> vme.regs == old(vme.regs)))
    {
      if ReadOnlyDigital(reason) {
        return Success;
      }
      assert DigitalWritePlan(modcmds, chancmds, reason, address) == AccessPlan(modcmds, chancmds, reason, address);
      if address.AddressError? {
        return address.status;
      }
      var addr := address.addr;
      var found, vmeAddr := FindRegister(reason, addr);
      if !found {
        return Error;
      }
      assert AccessPlan(modcmds, chancmds, reason, address) == Access(addr, vmeAddr);
      var ok := vme.WriteRegisterA16D32(base, vmeAddr, value, fault);
      if !ok {
        return Error;
      }
      params := params[(addr, reason) := value];
      status := Success;
    }

    /** readFloat64: reads the resolved register and posts its word to the
        parameter library. */
    method ReadFloat64(reason: int, address: Address, fault: bool) returns (status: Status, bits: Word)
      requires Valid() && address.Valid()
      modifies this`params
      ensures Valid()
      ensures var plan := AccessPlan(modcmds, chancmds, reason, address);
        && status == Outcome(plan, fault)
        && (plan.Access? && !fault ==>
              && vme != null && bits == vme.regs[(base, plan.offset)]
              && params == old(params)[(plan.addr, reason) := bits])
        && (!(plan.Access? && !fault) ==> params == old(params))
    {
      if address.AddressError? {
        return address.status, 0;
      }
      var addr := address.addr;
      var found, vmeAddr := FindRegister(reason, addr);
      if !found {
        return Error, 0;
      }
      var ok, data := vme.ReadRegisterA16D32(base, vmeAddr, fault);
      if !ok {
        return Error, 0;
      }
      params := params[(addr, reason) := data];
      bits := data;
      status := Success;
    }

    /** writeFloat64: drops writes to read-only parameters, otherwise writes the
        single-precision bits of the value to the resolved register. */
    method WriteFloat64(reason: int, address: Address, bits: Word, fault: bool) returns (status: Status)
      requires Valid() && address.Valid()
      modifies this`params, vme
      ensures Valid()
      ensures var plan := FloatWritePlan(modcmds, chancmds, reason, address);
        && status == Outcome(plan, fault)
        && (plan.Access? && !fault ==>
              && vme != null && vme.regs == old(vme.regs)[(base, plan.offset) := bits]
              && params == old(params)[(plan.addr, reason) := bits])
        && (plan.Access? && fault ==>
              && params == old(params)
              && vme != null && vme.regs == old(vme.regs)[(base, plan.offset) := vme.regs[(base, plan.offset)]])
        && (plan.Finish? ==>
              && params == old(params)
              && (vme != null ==> vme.regs == old(vme.regs)))
    {
      if ReadOnlyFloat(reason) {
        return Success;
      }
      assert FloatWritePlan(modcmds, chancmds, reason, address) == AccessPlan(modcmds, chancmds, reason, address);
      if address.AddressError? {
        return address.status;
      }
      var addr := address.addr;
      var found, vmeAddr := FindRegister(reason, addr);
      if !found {
        return Error;
      }
      assert AccessPlan(modcmds, chancmds, reason, address) == Access(addr, vmeAddr);
      var ok := vme.WriteRegisterA16D32(base, vmeAddr, bits, fault);
      if !ok {
        return Error;
      }
      params := params[(addr, reason) := bits];
      status := Success;
    }
  }

  /** A driver built without a VME master has empty tables, so every request
      that is not gated fails before it could reach the missing bus. */
  lemma NoMasterNoAccess(reason: int, address: Address)
    requires address.Valid()
    ensures AccessPlan(map[], map[], reason, address).Finish?
    ensures AccessPlan(map[], map[], reason, address) != Finish(Success)
  {
  }
}
