/** The register map of an ISEG VDS module: the two offset tables the driver
    keeps, the channel block bases, and the resolution of an asyn
    (reason, address) pair to one 16-bit register offset. */
module RegisterMap {
  import opened Asyn
  import opened IsegParams

  /** Base offset of each channel's register block, indexed by asyn address. */
  const ChanAddr: seq<Word> :=
    [0x0100, 0x0140, 0x0180, 0x01c0, 0x0200, 0x0240, 0x0280, 0x02c0]

  /** The offsets the constructor inserts into _modcmds, in createParam order. */
  const ModOffsets: seq<Word> :=
    [0x0000, 0x0004, 0x0008, 0x000c, 0x0010, 0x0014, 0x0018, 0x001c,
     0x0020, 0x0024, 0x0028, 0x002c, 0x0040, 0x0044, 0x0048, 0x004c]

  /** The offsets the constructor inserts into _chancmds, in createParam order. */
  const ChanOffsets: seq<Word> :=
    [0x0000, 0x0004, 0x0008, 0x000c, 0x0010, 0x0014, 0x0018, 0x001c, 0x0020, 0x0024]

  /** The module command table: the reason of each module parameter mapped to
      its offset from the module base. */
  const ModCmds: map<int, Word> :=
    map reason | 0 <= reason < NumModuleParams :: ModOffsets[reason]

  /** The channel command table: the reason of each channel parameter mapped to
      its offset inside a channel block. */
  const ChanCmds: map<int, Word> :=
    map reason | NumModuleParams <= reason < NumParams :: ChanOffsets[reason - NumModuleParams]

  /** Each parameter is in the table of its own region, with its own offset,
      and not in the other table. */
  lemma TablesMatchLayout(p: Param)
    ensures p.IsModule() ==> p.Index() in ModCmds && ModCmds[p.Index()] == p.Offset() && p.Index() !in ChanCmds
    ensures !p.IsModule() ==> p.Index() in ChanCmds && ChanCmds[p.Index()] == p.Offset() && p.Index() !in ModCmds
  {
  }

  /** The module table, entry by entry. */
  lemma ModuleTableListed(m: map<int, Word>)
    requires m == map[ 0 := 0x0000,  1 := 0x0004,  2 := 0x0008,  3 := 0x000c,
                       4 := 0x0010,  5 := 0x0014,  6 := 0x0018,  7 := 0x001c,
                       8 := 0x0020,  9 := 0x0024, 10 := 0x0028, 11 := 0x002c,
                      12 := 0x0040, 13 := 0x0044, 14 := 0x0048, 15 := 0x004c ]
    ensures m == ModCmds
  {
  }

  /** The channel table, entry by entry. */
  lemma ChannelTableListed(m: map<int, Word>)
    requires m == map[16 := 0x0000, 17 := 0x0004, 18 := 0x0008, 19 := 0x000c, 20 := 0x0010,
                      21 := 0x0014, 22 := 0x0018, 23 := 0x001c, 24 := 0x0020, 25 := 0x0024 ]
    ensures m == ChanCmds
  {
  }

  /** A reason is in one of the tables exactly when it is a parameter index. */
  lemma TablesDomain(reason: int)
    ensures reason in ModCmds || reason in ChanCmds <==> 0 <= reason < NumParams
  {
  }

  /** std::map::insert: adds the pair only when the key is not present yet. */
  function Insert(m: map<int, Word>, key: int, value: Word): (r: map<int, Word>) {
    if key in m then m else m[key := value]
  }

  /** Insert never overwrites: every key already present keeps its value, and
      the only key that may be added is the inserted one, with its value. */
  lemma InsertNeverOverwrites(m: map<int, Word>, key: int, value: Word)
    ensures Insert(m, key, value).Keys == m.Keys + {key}
    ensures forall k :: k in m ==> Insert(m, key, value)[k] == m[k]
    ensures key !in m ==> Insert(m, key, value)[key] == value
  {
  }

  /** Inserting a key that is not present adds the pair. */
  lemma InsertFresh(m: map<int, Word>, key: int, value: Word)
    requires key !in m
    ensures Insert(m, key, value) == m[key := value]
  {
  }

  /** The VME offset an entry point computes for a reason and an asyn address:
      the module table is tried first and gives the offset alone; otherwise the
      channel table gives an offset that is added to the channel's base;
      a reason in neither table has no register. */
  function Resolve(mod: map<int, Word>, chan: map<int, Word>, reason: int, addr: int): (r: Option<Word>)
    requires 0 <= addr < MaxAddr
    ensures r.Some? <==> reason in mod || reason in chan
    ensures reason in mod ==> r == Some(mod[reason])
    ensures reason !in mod && reason in chan ==>
      r.value as int == (ChanAddr[addr] as int + chan[reason] as int) % 0x1_0000_0000
  {
    if reason in mod then Some(Add32(0, mod[reason]))
    else if reason in chan then Some(Add32(Add32(0, ChanAddr[addr]), chan[reason]))
    else None
  }

  /** The constructor's inserts into _modcmds, starting from the empty map.
      No key repeats, so every insert adds its pair. */
  method ModuleCommands() returns (mod: map<int, Word>)
    ensures mod == ModCmds
  {
    mod := map[];
    InsertFresh(mod, P_ModStatus, 0x0000);
    mod := Insert(mod, P_ModStatus, 0x0000);
    InsertFresh(mod, P_ModEvtStatus, 0x0004);
    mod := Insert(mod, P_ModEvtStatus, 0x0004);
    InsertFresh(mod, P_ModEvtMask, 0x0008);
    mod := Insert(mod, P_ModEvtMask, 0x0008);
    InsertFresh(mod, P_ModCtrl, 0x000c);
    mod := Insert(mod, P_ModCtrl, 0x000c);
    InsertFresh(mod, P_ModEvtChanStatus, 0x0010);
    mod := Insert(mod, P_ModEvtChanStatus, 0x0010);
    InsertFresh(mod, P_ModEvtChanMask, 0x0014);
    mod := Insert(mod, P_ModEvtChanMask, 0x0014);
    InsertFresh(mod, P_ModEvtGrpStatus, 0x0018);
    mod := Insert(mod, P_ModEvtGrpStatus, 0x0018);
    InsertFresh(mod, P_ModEvtGrpMask, 0x001c);
    mod := Insert(mod, P_ModEvtGrpMask, 0x001c);
    InsertFresh(mod, P_VRamp, 0x0020);
    mod := Insert(mod, P_VRamp, 0x0020);
    InsertFresh(mod, P_CRamp, 0x0024);
    mod := Insert(mod, P_CRamp, 0x0024);
    InsertFresh(mod, P_VMax, 0x0028);
    mod := Insert(mod, P_VMax, 0x0028);
    InsertFresh(mod, P_IMax, 0x002c);
    mod := Insert(mod, P_IMax, 0x002c);
    InsertFresh(mod, P_SupplyP5, 0x0040);
    mod := Insert(mod, P_SupplyP5, 0x0040);
    InsertFresh(mod, P_SupplyP12, 0x0044);
    mod := Insert(mod, P_SupplyP12, 0x0044);
    InsertFresh(mod, P_SupplyN12, 0x0048);
    mod := Insert(mod, P_SupplyN12, 0x0048);
    InsertFresh(mod, P_Temperature, 0x004c);
    mod := Insert(mod, P_Temperature, 0x004c);
    ModuleTableListed(mod);
  }

  /** The constructor's inserts into _chancmds, starting from the empty map.
      No key repeats, so every insert adds its pair. */
  method ChannelCommands() returns (chan: map<int, Word>)
    ensures chan == ChanCmds
  {
    chan := map[];
    InsertFresh(chan, P_ChanStatus, 0x0000);
    chan := Insert(chan, P_ChanStatus, 0x0000);
    InsertFresh(chan, P_ChanEvtStatus, 0x0004);
    chan := Insert(chan, P_ChanEvtStatus, 0x0004);
    InsertFresh(chan, P_ChanEvtMask, 0x0008);
    chan := Insert(chan, P_ChanEvtMask, 0x0008);
    InsertFresh(chan, P_ChanCtrl, 0x000c);
    chan := Insert(chan, P_ChanCtrl, 0x000c);
    InsertFresh(chan, P_ChanVset, 0x0010);
    chan := Insert(chan, P_ChanVset, 0x0010);
    InsertFresh(chan, P_ChanIset, 0x0014);
    chan := Insert(chan, P_ChanIset, 0x0014);
    InsertFresh(chan, P_ChanVmom, 0x0018);
    chan := Insert(chan, P_ChanVmom, 0x0018);
    InsertFresh(chan, P_ChanImom, 0x001c);
    chan := Insert(chan, P_ChanImom, 0x001c);
    InsertFresh(chan, P_ChanVBounds, 0x0020);
    chan := Insert(chan, P_ChanVBounds, 0x0020);
    InsertFresh(chan, P_ChanIBounds, 0x0024);
    chan := Insert(chan, P_ChanIBounds, 0x0024);
    ChannelTableListed(chan);
  }

  /** Channel blocks start at 0x100 and are 0x40 apart. */
  lemma ChanAddrStride(addr: int)
    requires 0 <= addr < MaxAddr
    ensures ChanAddr[addr] as int == 0x100 + 0x40 * addr
  {
  }

  /** No reason is in both tables, so the order in which they are consulted
      never changes the result for the driver's own tables. */
  lemma TablesDisjoint()
    ensures ModCmds.Keys !! ChanCmds.Keys
  {
  }

  /** Each parameter resolves to its documented register: a module parameter to
      its offset whatever the address, a channel parameter to its offset inside
      the addressed channel's block. */
  lemma ResolveParam(p: Param, addr: int)
    requires 0 <= addr < MaxAddr
    ensures p.IsModule() ==> Resolve(ModCmds, ChanCmds, p.Index(), addr) == Some(p.Offset())
    ensures !p.IsModule() ==>
      Resolve(ModCmds, ChanCmds, p.Index(), addr) == Some((ChanAddr[addr] as int + p.Offset() as int) as Word)
  {
    TablesMatchLayout(p);
    ChanAddrStride(addr);
  }

  /** A reason resolves to a register exactly when it names one of the
      driver's parameters; any other reason has no register at any address. */
  lemma ResolveKnown(reason: int, addr: int)
    requires 0 <= addr < MaxAddr
    ensures Resolve(ModCmds, ChanCmds, reason, addr).Some? <==> FromIndex(reason).Some?
  {
    if 0 <= reason < NumParams {
      assert reason in ModCmds || reason in ChanCmds;
    }
  }

  /** A register of the module, named by what it holds. */
  datatype Register = ModuleRegister(param: Param) | ChannelRegister(channel: int, param: Param)

  /** The first parameter, in creation order from reason i on, with the given
      region and offset: the reverse lookup of the command tables. */
  function ParamAt(inModule: bool, off: Word, i: nat): (r: Option<Param>)
    requires i <= NumParams
    ensures r.Some? ==> r.value.IsModule() == inModule && r.value.Offset() == off
    decreases NumParams - i
  {
    if i == NumParams then None
    else
      var p := FromIndex(i).value;
      if p.IsModule() == inModule && p.Offset() == off then Some(p)
      else ParamAt(inModule, off, i + 1)
  }

  /** Which register an offset of the module's window is, if any: below 0x100
      the module block, from 0x100 to 0x2ff one 0x40-byte block per channel. */
  function Decode(offset: Word): (r: Option<Register>)
    ensures r.Some? && r.value.ModuleRegister? ==>
      offset < 0x100 && r.value.param.IsModule() && r.value.param.Offset() == offset
    ensures r.Some? && r.value.ChannelRegister? ==>
      0x100 <= offset && 0 <= r.value.channel < MaxAddr && !r.value.param.IsModule()
  {
    if offset < 0x100 then DecodeModule(offset)
    else if offset as int < 0x100 + 0x40 * MaxAddr then
      DecodeChannel((offset as int - 0x100) / 0x40, ((offset as int - 0x100) % 0x40) as Word)
    else None
  }

  /** The module register at an offset of the module block, if any. */
  function DecodeModule(off: Word): (r: Option<Register>)
    ensures r.Some? ==> r.value.ModuleRegister? && r.value.param.IsModule() && r.value.param.Offset() == off
  {
    match ParamAt(true, off, 0)
    case None => None
    case Some(p) => Some(ModuleRegister(p))
  }

  /** The register of a channel at an offset inside that channel's block, if any. */
  function DecodeChannel(channel: int, off: Word): (r: Option<Register>)
    ensures r.Some? ==>
      && r.value == ChannelRegister(channel, r.value.param)
      && !r.value.param.IsModule() && r.value.param.Offset() == off
  {
    match ParamAt(false, off, 0)
    case None => None
    case Some(p) => Some(ChannelRegister(channel, p))
  }

  /** The reverse lookup finds every parameter from its region and offset. */
  lemma {:induction false} ParamAtFinds(p: Param, i: nat)
    requires i <= p.Index()
    ensures ParamAt(p.IsModule(), p.Offset(), i) == Some(p)
    decreases p.Index() - i
  {
    IndexRoundTrip(p, i);
    if i < p.Index() {
      var q := FromIndex(i).value;
      if q.IsModule() == p.IsModule() && q.Offset() == p.Offset() {
        OffsetsDistinct(q, p);
      }
      ParamAtFinds(p, i + 1);
    }
  }

  /** A module register decodes to its parameter. */
  lemma DecodeModuleParam(p: Param)
    requires p.IsModule()
    ensures Decode(p.Offset()) == Some(ModuleRegister(p))
  {
    ParamAtFinds(p, 0);
  }

  /** Offsets 0x100 to 0x2ff split into a channel block and an offset inside it. */
  lemma DecodeChannelBlock(addr: int, off: Word)
    requires 0 <= addr < MaxAddr && off < 0x40
    ensures Decode((0x100 + 0x40 * addr + off as int) as Word) == DecodeChannel(addr, off)
  {
    var y := 0x40 * addr + off as int;
    assert y / 0x40 == addr && y % 0x40 == off as int;
  }

  /** A channel register decodes to its channel and parameter. */
  lemma DecodeChannelParam(p: Param, addr: int)
    requires !p.IsModule() && 0 <= addr < MaxAddr
    ensures Decode((0x100 + 0x40 * addr + p.Offset() as int) as Word) == Some(ChannelRegister(addr, p))
  {
    ParamAtFinds(p, 0);
    assert DecodeChannel(addr, p.Offset()) == Some(ChannelRegister(addr, p));
    DecodeChannelBlock(addr, p.Offset());
  }

  /** Decoding recovers the parameter, and for a channel parameter the channel,
      from the register a (reason, address) pair resolves to. */
  lemma DecodeResolve(p: Param, addr: int)
    requires 0 <= addr < MaxAddr
    ensures Resolve(ModCmds, ChanCmds, p.Index(), addr).Some?
    ensures Decode(Resolve(ModCmds, ChanCmds, p.Index(), addr).value)
      == Some(if p.IsModule() then ModuleRegister(p) else ChannelRegister(addr, p))
  {
    ResolveParam(p, addr);
    if p.IsModule() {
      DecodeModuleParam(p);
    } else {
      ChanAddrStride(addr);
      DecodeChannelParam(p, addr);
    }
  }

  /** An offset of the channel area lies in one channel's block. */
  lemma ChannelSplit(offset: Word)
    requires 0x100 <= offset as int < 0x100 + 0x40 * MaxAddr
    ensures var y := offset as int - 0x100;
      && 0 <= y / 0x40 < MaxAddr
      && offset as int == 0x100 + 0x40 * (y / 0x40) + y % 0x40
  {
  }

  /** A decoded module register is where a module parameter resolves. */
  lemma ResolveDecodeModule(offset: Word, addr: int)
    requires offset < 0x100 && Decode(offset).Some? && 0 <= addr < MaxAddr
    ensures Decode(offset).value.ModuleRegister?
    ensures Decode(offset).value.param.IsModule()
    ensures Resolve(ModCmds, ChanCmds, Decode(offset).value.param.Index(), addr) == Some(offset)
  {
    ResolveParam(Decode(offset).value.param, addr);
  }

  /** A decoded channel register is where its channel parameter resolves for
      its channel. */
  lemma ResolveDecodeChannel(offset: Word)
    requires offset >= 0x100 && Decode(offset).Some?
    ensures var reg := Decode(offset).value;
      && reg.ChannelRegister? && 0 <= reg.channel < MaxAddr && !reg.param.IsModule()
      && Resolve(ModCmds, ChanCmds, reg.param.Index(), reg.channel) == Some(offset)
  {
    var y := offset as int - 0x100;
    var channel, off := y / 0x40, (y % 0x40) as Word;
    ChannelSplit(offset);
    DecodeChannelBlock(channel, off);
    var p := ParamAt(false, off, 0).value;
    assert Decode(offset) == Some(ChannelRegister(channel, p));
    ResolveChannelParam(p, channel, offset);
  }

  /** A channel parameter resolves, for its channel, to the offset its channel
      block and its offset inside the block add up to. */
  lemma ResolveChannelParam(p: Param, channel: int, offset: Word)
    requires !p.IsModule() && 0 <= channel < MaxAddr
    requires offset as int == 0x100 + 0x40 * channel + p.Offset() as int
    ensures Resolve(ModCmds, ChanCmds, p.Index(), channel) == Some(offset)
  {
    ResolveParam(p, channel);
    ChanAddrStride(channel);
  }

  /** Every decoded register is where resolution puts it. */
  lemma ResolveDecode(offset: Word, addr: int)
    requires Decode(offset).Some?
    requires 0 <= addr < MaxAddr
    ensures var reg := Decode(offset).value;
      && (reg.ModuleRegister? ==> reg.param.IsModule())
      && (reg.ChannelRegister? ==> 0 <= reg.channel < MaxAddr && !reg.param.IsModule())
      && (reg.ModuleRegister? || addr == reg.channel ==>
           Resolve(ModCmds, ChanCmds, reg.param.Index(), addr) == Some(offset))
  {
    if offset < 0x100 {
      ResolveDecodeModule(offset, addr);
    } else {
      ResolveDecodeChannel(offset);
    }
  }

  /** Distinct (reason, address) pairs never share a register: two requests that
      reach the same offset name the same parameter, and for a channel parameter
      the same channel. In particular module registers never collide with channel
      registers and channel blocks never overlap. */
  lemma RegistersDistinct(r1: int, a1: int, r2: int, a2: int)
    requires 0 <= a1 < MaxAddr && 0 <= a2 < MaxAddr
    requires Resolve(ModCmds, ChanCmds, r1, a1).Some?
    requires Resolve(ModCmds, ChanCmds, r1, a1) == Resolve(ModCmds, ChanCmds, r2, a2)
    ensures r1 == r2
    ensures r1 in ChanCmds ==> a1 == a2
  {
    ResolveKnown(r1, a1);
    ResolveKnown(r2, a2);
    var p1, p2 := FromIndex(r1).value, FromIndex(r2).value;
    IndexRoundTrip(p1, r1);
    IndexRoundTrip(p2, r2);
    DecodeResolve(p1, a1);
    DecodeResolve(p2, a2);
  }

  /** A D32-aligned offset inside a channel block gives a D32-aligned register
      of that block, below 0x2e4 for the last block. */
  lemma ChannelBounds(addr: int, off: Word)
    requires 0 <= addr < MaxAddr && off as int % 4 == 0 && off <= 0x24
    ensures var x := 0x100 + 0x40 * addr + off as int;
      x % 4 == 0 && x <= 0x2e4
  {
    var k := off as int / 4;
    assert 0x100 + 0x40 * addr + off as int == 4 * (0x40 + 0x10 * addr + k);
  }

  /** A module parameter's register is D32-aligned and at most 0x4c. */
  lemma ModuleRegisterBounds(reason: int, addr: int)
    requires 0 <= addr < MaxAddr && reason in ModCmds
    ensures var x := Resolve(ModCmds, ChanCmds, reason, addr).value as int;
      x % 4 == 0 && x <= 0x4c
  {
    var p := FromIndex(reason).value;
    IndexRoundTrip(p, reason);
    ResolveParam(p, addr);
  }

  /** A channel parameter's register is D32-aligned and lies in the first 0x28
      bytes of the addressed channel's block. */
  lemma ChannelRegisterBounds(reason: int, addr: int)
    requires 0 <= addr < MaxAddr && reason in ChanCmds
    ensures var x := Resolve(ModCmds, ChanCmds, reason, addr).value as int;
      && x % 4 == 0 && x <= 0x2e4
      && 0x100 + 0x40 * addr <= x <= 0x100 + 0x40 * addr + 0x24
  {
    var p := FromIndex(reason).value;
    IndexRoundTrip(p, reason);
    TablesDisjoint();
    ResolveParam(p, addr);
    ChanAddrStride(addr);
    ChannelBounds(addr, p.Offset());
  }

  /** Every resolved register is D32-aligned and inside the module's window:
      module registers at most 0x4c, channel registers between the addressed
      block's base and base + 0x24, so never beyond 0x2c0 + 0x24. */
  lemma ResolvedBounds(reason: int, addr: int)
    requires 0 <= addr < MaxAddr
    requires Resolve(ModCmds, ChanCmds, reason, addr).Some?
    ensures var x := Resolve(ModCmds, ChanCmds, reason, addr).value as int;
      && x % 4 == 0 && x <= 0x2e4
      && (reason in ModCmds ==> x <= 0x4c)
      && (reason in ChanCmds ==> 0x100 + 0x40 * addr <= x <= 0x100 + 0x40 * addr + 0x24)
  {
    TablesDisjoint();
    if reason in ModCmds {
      ModuleRegisterBounds(reason, addr);
    } else {
      ChannelRegisterBounds(reason, addr);
    }
  }
}
