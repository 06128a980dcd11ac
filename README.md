# drvAsynIsegVds in Dafny

drvAsynIsegVds is an EPICS asyn port driver for the ISEG VDS high-voltage VME
module. The port has eight asyn addresses, one per channel, and 26 parameters.
Sixteen of them live in the module's own register block and ten are repeated in
every channel block. Each parameter is identified by its asyn reason, which is
the number `createParam` gives it.

The driver keeps two command tables:

- `_modcmds` maps the reason of each module parameter to its offset.
- `_chancmds` maps the reason of each channel parameter to its offset inside a
  channel block.

Channel blocks start at `chanAddr[addr]` = 0x100 + 0x40 * addr.

Every asyn entry point does the same lookup:

1. Try the module table. On a hit, the register is the offset alone.
2. Otherwise try the channel table. On a hit, the register is the channel
   block's base plus the offset.
3. Otherwise return `asynError`.

The entry points then read or write that A16/D32 register through the VME
master. A `VmeException` from the bus turns into `asynError`.

Each write entry point has its own gate, checked before `getAddress` is called:

- `writeUInt32Digital` returns `asynSuccess` and does nothing for the two status
  parameters, `P_ModStatus` and `P_ChanStatus`.
- `writeFloat64` returns `asynSuccess` and does nothing for its eight read-only
  parameters: `P_VMax`, `P_IMax`, `P_SupplyP5`, `P_SupplyP12`, `P_SupplyN12`,
  `P_Temperature`, `P_ChanVmom` and `P_ChanImom`.

The gates are per interface. `writeFloat64` on a status parameter writes float
bits into the status register. `writeUInt32Digital` on one of the eight
writes a raw word into that register.

The model has five modules:

- `Asyn` (asyn.dfy): asyn statuses, 32-bit words with wrap-around addition, and
  the outcome of `getAddress`.
- `IsegParams` (params.dfy): the 26 parameters and their `createParam`
  numbering. It also gives each parameter's region (module or channel) and
  register offset.
- `RegisterMap` (layout.dfy): the two tables, `chanAddr`, and the constructor's
  inserts that build the tables. It also holds the resolution of a
  (reason, address) pair to a register offset, and `Decode`, the inverse of
  that resolution. The lemmas about them are here too: each parameter reaches
  its register; unknown reasons fail; distinct requests never share a register;
  every register is aligned and inside the module window.
- `Vme` (vme.dfy): the VME master as a class holding every A16 register. Its
  read and write can fail with a `VmeException`, modelled as a `fault` input.
- `IsegVdsDriver` (driver.dfy): the driver class. It covers the constructor,
  the four entry points as methods that update the parameter values and the
  bus, the write gating, and the lemmas that connect the entry points to the
  register map.

## Model

| member | source | states |
|---|---|---|
| Asyn.Add32 | drvAsynIsegVdsApp/src/drvAsynIsegVds.cpp:95-97 | `vmeAddr +=` on epicsUInt32: the exact sum when it fits in 32 bits, the sum minus 2^32 when it does not |
| IsegParams.Param.Index | drvAsynIsegVdsApp/src/drvAsynIsegVds.cpp:331-357 | createParam numbers the parameters 0..25 in creation order; a parameter is a module parameter exactly when its number is below 16 |
| IsegParams.Param.Offset | drvAsynIsegVdsApp/src/drvAsynIsegVds.cpp:359-385 | every offset is D32-aligned; module offsets are at most 0x4c, channel offsets at most 0x24 |
| IsegParams.FromIndex | drvAsynIsegVdsApp/src/drvAsynIsegVds.cpp:331-357 | a reason names a parameter exactly when it is one of the 26 numbers createParam handed out |
| IsegParams.IndexRoundTrip | drvAsynIsegVdsApp/src/drvAsynIsegVds.cpp:331-357 | the reason-to-parameter lookup and the createParam numbering are inverse to each other |
| IsegParams.ModuleReasonNumbers | drvAsynIsegVdsApp/src/drvAsynIsegVds.cpp:331-346 | each module `P_*` reason is the creation-order number of its parameter |
| IsegParams.ChannelReasonNumbers | drvAsynIsegVdsApp/src/drvAsynIsegVds.cpp:348-357 | each channel `P_*` reason is the creation-order number of its parameter |
| IsegParams.OffsetsDistinct | drvAsynIsegVdsApp/src/drvAsynIsegVds.cpp:359-385 | no two parameters of the same region share an offset |
| RegisterMap.TablesMatchLayout | drvAsynIsegVdsApp/src/drvAsynIsegVds.cpp:359-385 | each parameter is in its own region's table, with its own offset, and is absent from the other table |
| RegisterMap.TablesDomain | drvAsynIsegVdsApp/src/drvAsynIsegVds.cpp:359-385 | a reason is in one of the two tables exactly when it is one of the driver's parameters |
| RegisterMap.TablesDisjoint | drvAsynIsegVdsApp/src/drvAsynIsegVds.cpp:359-385 | no reason is in both tables, so consulting the module table first never hides a channel entry |
| RegisterMap.ModuleCommands | drvAsynIsegVdsApp/src/drvAsynIsegVds.cpp:359-374 | the sixteen `_modcmds.insert` calls, starting from an empty map, produce exactly the module table |
| RegisterMap.ChannelCommands | drvAsynIsegVdsApp/src/drvAsynIsegVds.cpp:376-385 | the ten `_chancmds.insert` calls, starting from an empty map, produce exactly the channel table |
| RegisterMap.InsertNeverOverwrites | drvAsynIsegVdsApp/src/drvAsynIsegVds.cpp:359-385 | `std::map::insert` keeps the value of every key already present, and the only key it can add is the inserted one, with its value |
| RegisterMap.Resolve | drvAsynIsegVdsApp/src/drvAsynIsegVds.cpp:91-97 | for any tables: a register is found exactly when the reason is in one of them; a module entry gives its offset alone; otherwise a channel entry gives chanAddr[addr] plus its offset, modulo 2^32 |
| RegisterMap.Decode | drvAsynIsegVdsApp/src/drvAsynIsegVds.cpp:64-65 | the inverse of resolution: an offset below 0x100 decodes only to a module parameter with that offset; an offset from 0x100 on decodes only to a channel parameter on one of the eight channels |
| RegisterMap.ChanAddrStride | drvAsynIsegVdsApp/src/drvAsynIsegVds.cpp:64-65 | channel blocks start at 0x100 and are 0x40 apart |
| RegisterMap.ResolveParam | drvAsynIsegVdsApp/src/drvAsynIsegVds.cpp:91-97 | a module parameter resolves to its own offset at every address; a channel parameter resolves to the addressed channel's base plus its offset |
| RegisterMap.ResolveKnown | drvAsynIsegVdsApp/src/drvAsynIsegVds.cpp:91-97 | resolution succeeds exactly for the driver's parameters, at every address |
| RegisterMap.ParamAt | drvAsynIsegVdsApp/src/drvAsynIsegVds.cpp:359-385 | the reverse table lookup returns only a parameter with the requested region and offset |
| RegisterMap.ParamAtFinds | drvAsynIsegVdsApp/src/drvAsynIsegVds.cpp:359-385 | the reverse table lookup finds every parameter from its region and offset |
| RegisterMap.DecodeModuleParam | drvAsynIsegVdsApp/src/drvAsynIsegVds.cpp:359-374 | a module parameter's offset decodes back to that parameter |
| RegisterMap.DecodeChannelParam | drvAsynIsegVdsApp/src/drvAsynIsegVds.cpp:376-385 | a channel block base plus a channel parameter's offset decodes back to that channel and parameter |
| RegisterMap.DecodeResolve | drvAsynIsegVdsApp/src/drvAsynIsegVds.cpp:91-97 | decoding the register a parameter resolves to recovers the parameter, and for a channel parameter also the channel |
| RegisterMap.ResolveDecodeModule | drvAsynIsegVdsApp/src/drvAsynIsegVds.cpp:91-97 | every decodable offset below 0x100 is the register of a module parameter at every address |
| RegisterMap.ResolveDecodeChannel | drvAsynIsegVdsApp/src/drvAsynIsegVds.cpp:93-97 | every decodable offset from 0x100 on is the register of a channel parameter on the decoded channel |
| RegisterMap.ResolveDecode | drvAsynIsegVdsApp/src/drvAsynIsegVds.cpp:91-97 | every decodable register is where resolution puts its parameter, so resolution and decoding are inverse in both directions |
| RegisterMap.RegistersDistinct | drvAsynIsegVdsApp/src/drvAsynIsegVds.cpp:91-97 | two (reason, address) pairs that resolve to the same register name the same parameter, and for a channel parameter the same channel |
| RegisterMap.ModuleRegisterBounds | drvAsynIsegVdsApp/src/drvAsynIsegVds.cpp:91-97 | a module parameter's register is D32-aligned and at most 0x4c |
| RegisterMap.ChannelRegisterBounds | drvAsynIsegVdsApp/src/drvAsynIsegVds.cpp:93-97 | a channel parameter's register is D32-aligned and lies in the first 0x28 bytes of the addressed channel block |
| RegisterMap.ResolvedBounds | drvAsynIsegVdsApp/src/drvAsynIsegVds.cpp:91-97 | every resolved register is D32-aligned, at most 0x2e4, and inside its own region's block |
| Vme.VmeMaster.ReadRegisterA16D32 | drvAsynIsegVdsApp/src/drvAsynIsegVds.cpp:99-106 | a read either raises a VmeException or returns the register's word |
| Vme.VmeMaster.WriteRegisterA16D32 | drvAsynIsegVdsApp/src/drvAsynIsegVds.cpp:156-163 | a write that raises no VmeException changes exactly the addressed register, to the given word; one that raises a VmeException leaves every other register as it was and promises nothing about the addressed one |
| IsegVdsDriver.UnknownReasonRejected | drvAsynIsegVdsApp/src/drvAsynIsegVds.cpp:91-94 | a reason that is none of the driver's parameters never reaches the bus and never returns success, through any entry point and whatever getAddress returns |
| IsegVdsDriver.ReadOnlyDigital | drvAsynIsegVdsApp/src/drvAsynIsegVds.cpp:142-143 | the digital write gate holds exactly for the reasons of the two status parameters |
| IsegVdsDriver.ReadOnlyFloat | drvAsynIsegVdsApp/src/drvAsynIsegVds.cpp:256-263 | the float write gate holds exactly for the reasons of VMax, IMax, the three supplies, Temperature, ChanVmom and ChanImom |
| IsegVdsDriver.AccessPlan | drvAsynIsegVdsApp/src/drvAsynIsegVds.cpp:89-97 | a failed getAddress is returned unchanged; a request goes on to the bus exactly when getAddress succeeds and the reason resolves, and then at the resolved register; a request that stops before the bus never reports success |
| IsegVdsDriver.DigitalWritePlan | drvAsynIsegVdsApp/src/drvAsynIsegVds.cpp:142-154 | writeUInt32Digital finishes with success before the bus exactly when its gate holds; otherwise it proceeds as the other entry points do |
| IsegVdsDriver.FloatWritePlan | drvAsynIsegVdsApp/src/drvAsynIsegVds.cpp:256-277 | writeFloat64 finishes with success before the bus exactly when its gate holds; otherwise it proceeds as the other entry points do |
| IsegVdsDriver.Outcome | drvAsynIsegVdsApp/src/drvAsynIsegVds.cpp:99-106 | an entry point reports success exactly when it was gated or its bus access raised no VmeException; a VmeException gives asynError |
| IsegVdsDriver.WriteGates | drvAsynIsegVdsApp/src/drvAsynIsegVds.cpp:142-146 | for every parameter and whatever getAddress returns, writeUInt32Digital succeeds without the bus exactly for ModStatus and ChanStatus, and writeFloat64 exactly for its eight read-only parameters |
| IsegVdsDriver.GatesArePerInterface | drvAsynIsegVdsApp/src/drvAsynIsegVds.cpp:256-264 | the gates are per interface: writeFloat64 on a status parameter and writeUInt32Digital on a float read-only parameter both reach the module register, e.g. offset 0 for ModStatus and 0x28 for VMax |
| IsegVdsDriver.ParamReachesItsRegister | drvAsynIsegVdsApp/src/drvAsynIsegVds.cpp:148-154 | once getAddress succeeds, every parameter that is not gated reaches its own register: the module offset, or the channel block plus the offset |
| IsegVdsDriver.WriteIsolation | drvAsynIsegVdsApp/src/drvAsynIsegVds.cpp:156-157 | a write for one parameter, or for one channel of a channel parameter, never changes the register any other request reads |
| IsegVdsDriver.NoMasterNoAccess | drvAsynIsegVdsApp/src/drvAsynIsegVds.cpp:324-328 | with no VME master the tables stay empty, so every request that is not gated fails before it would touch the bus |
| IsegVdsDriver.IsegVds.constructor | drvAsynIsegVdsApp/src/drvAsynIsegVds.cpp:308-387 | without a VME master the tables stay empty; otherwise they are exactly the module and channel tables; no parameter value is set yet |
| IsegVdsDriver.IsegVds.FindRegister | drvAsynIsegVdsApp/src/drvAsynIsegVds.cpp:148-154 | the lookup the entry points repeat finds a register exactly when resolution does, and it finds the resolved one |
| IsegVdsDriver.IsegVds.ReadUInt32Digital | drvAsynIsegVdsApp/src/drvAsynIsegVds.cpp:80-120 | returns getAddress's failure, asynError for an unknown reason or a VmeException, else asynSuccess with the register's word, which it also stores as the (address, reason) parameter; every failure leaves the parameters unchanged |
| IsegVdsDriver.IsegVds.WriteUInt32Digital | drvAsynIsegVdsApp/src/drvAsynIsegVds.cpp:133-179 | read-only status parameters succeed with no effect; otherwise it returns getAddress's failure or asynError, or writes the value to exactly the resolved register and stores it as the parameter; every failure leaves the parameters unchanged, a failure before the bus leaves the bus unchanged, and a VmeException can have changed at most the resolved register |
| IsegVdsDriver.IsegVds.ReadFloat64 | drvAsynIsegVdsApp/src/drvAsynIsegVds.cpp:191-235 | the same statuses as the digital read; on success the register's word is returned and stored as the parameter |
| IsegVdsDriver.IsegVds.WriteFloat64 | drvAsynIsegVdsApp/src/drvAsynIsegVds.cpp:247-299 | the eight read-only parameters succeed with no effect; otherwise it behaves like the digital write, writing the word to exactly the resolved register; a VmeException leaves the parameters unchanged and can have changed at most the resolved register |

## Left out

- The VME master's internals are not part of this model, and neither are `VmeMaster::getInstance` or how `_base` selects the module. The bus is an abstract map from (base, offset) to a 32-bit word. Whether an access raises a `VmeException` is an input (`fault`). The source only catches that exception, so a write that raises one is not assumed to have left its register untouched: the model keeps only that no other register changed.
- `getAddress` belongs to the asyn framework and is not part of this model. Its result is an input: either an address below maxAddr = 8 or a failing status.
- Float conversions are left out: the `float_t` union, the cast to `epicsFloat32`, and the A-to-uA scaling of `P_ChanIset` and `P_ChanImom`. The float entry points carry the raw 32-bit register word.
- IsegVdsDriver.IsegVds.ReadFloat64: stores the raw register word as the parameter, where the source stores the converted float, multiplied by 1e6 for `P_ChanImom` and `P_ChanIset`.
- IsegVdsDriver.IsegVds.WriteFloat64: takes the word to write as input and stores that word as the parameter. The source computes the word from the double, scaling it by 1e-6 for `P_ChanIset`, and stores the double it was given.
- IsegVdsDriver.IsegVds.ReadUInt32Digital: ignores the `mask`. It returns and stores the whole word, where the source stores it through `setUIntDigitalParam` with the mask and reads it back through `getUIntDigitalParam`.
- IsegVdsDriver.IsegVds.WriteUInt32Digital: ignores the `mask` when it stores the parameter. The word written to the bus is unmasked, as in the source.
- The parameter library's own statuses are not modelled: `setUIntDigitalParam`, `getUIntDigitalParam`, `setDoubleParam`, `getDoubleParam` and `callParamCallbacks` are taken to succeed. Its values are a map from (address, reason) to a word. So a read through the wrong interface also reports success in the model. In the source it returns `asynParamWrongType` from `getUIntDigitalParam` (line 109) or `getDoubleParam` (line 224): for example `readUInt32Digital` on a Float64 reason, or `readFloat64` on a UInt32Digital reason. The write entry points return the status of `callParamCallbacks`, so a wrong-type store does not change their status.
- Parameter names, types and interrupt callbacks are left out. So are the interface and interrupt masks and the asyn flags.
- `createParam` is taken to number the parameters 0..25 in creation order, which is how the asyn parameter library hands out indices.
- The constructor without a VME master returns before `createParam`, which leaves the `P_*` members unset. The model still uses the creation-order numbers for the gating tests in that case.
- Timestamps, error messages, `asynPrint` tracing, `drvAsynIsegVdsConfigure` and the iocsh registration are left out, because they have no effect on the values or statuses modelled here.
- Concurrency is left out: the asyn port lock and ASYN_CANBLOCK threading are not modelled.
