/** The asyn parameters of the ISEG VDS driver and where each one lives in the
    module's VME register window. */
module IsegParams {
  import opened Asyn

  /** One constructor per P_* parameter the driver creates. */
  datatype Param =
    // module data
    | ModStatus | ModEvtStatus | ModEvtMask | ModCtrl
    | ModEvtChanStatus | ModEvtChanMask | ModEvtGrpStatus | ModEvtGrpMask
    | VRamp | CRamp | VMax | IMax
    | SupplyP5 | SupplyP12 | SupplyN12 | Temperature
    // channel data
    | ChanStatus | ChanEvtStatus | ChanEvtMask | ChanCtrl
    | ChanVset | ChanIset | ChanVmom | ChanImom
    | ChanVBounds | ChanIBounds
  {
    /** True of the parameters that live in the module block rather than in a
        per-channel block. */
    predicate IsModule() {
      !(|| ChanStatus? || ChanEvtStatus? || ChanEvtMask? || ChanCtrl?
        || ChanVset? || ChanIset? || ChanVmom? || ChanImom?
        || ChanVBounds? || ChanIBounds?)
    }

    /** The index createParam hands out: parameters are numbered in creation order. */
    function Index(): (i: int)
      ensures 0 <= i < NumParams
      ensures IsModule() <==> i < NumModuleParams
    {
      match this
      case ModStatus => 0          case ModEvtStatus => 1
      case ModEvtMask => 2         case ModCtrl => 3
      case ModEvtChanStatus => 4   case ModEvtChanMask => 5
      case ModEvtGrpStatus => 6    case ModEvtGrpMask => 7
      case VRamp => 8              case CRamp => 9
      case VMax => 10              case IMax => 11
      case SupplyP5 => 12          case SupplyP12 => 13
      case SupplyN12 => 14         case Temperature => 15
      case ChanStatus => 16        case ChanEvtStatus => 17
      case ChanEvtMask => 18       case ChanCtrl => 19
      case ChanVset => 20          case ChanIset => 21
      case ChanVmom => 22          case ChanImom => 23
      case ChanVBounds => 24       case ChanIBounds => 25
    }

    /** The register offset of the parameter: relative to the module base for a
        module parameter, relative to the channel block for a channel parameter.
        Every offset is D32-aligned; module offsets stay below 0x50 and channel
        offsets below 0x28, which is what keeps channel blocks 0x40 apart disjoint. */
    function Offset(): (off: Word)
      ensures off as int % 4 == 0
      ensures IsModule() ==> off <= 0x4c
      ensures !IsModule() ==> off <= 0x24
    {
      match this
      case ModStatus => 0x0000         case ModEvtStatus => 0x0004
      case ModEvtMask => 0x0008        case ModCtrl => 0x000c
      case ModEvtChanStatus => 0x0010  case ModEvtChanMask => 0x0014
      case ModEvtGrpStatus => 0x0018   case ModEvtGrpMask => 0x001c
      case VRamp => 0x0020             case CRamp => 0x0024
      case VMax => 0x0028              case IMax => 0x002c
      case SupplyP5 => 0x0040          case SupplyP12 => 0x0044
      case SupplyN12 => 0x0048         case Temperature => 0x004c
      case ChanStatus => 0x0000        case ChanEvtStatus => 0x0004
      case ChanEvtMask => 0x0008       case ChanCtrl => 0x000c
      case ChanVset => 0x0010          case ChanIset => 0x0014
      case ChanVmom => 0x0018          case ChanImom => 0x001c
      case ChanVBounds => 0x0020       case ChanIBounds => 0x0024
    }
  }

  /** The reason numbers createParam assigns, which the driver keeps in its P_*
      members; they are the values of Index(). */
  const P_ModStatus: int := 0
  const P_ModEvtStatus: int := 1
  const P_ModEvtMask: int := 2
  const P_ModCtrl: int := 3
  const P_ModEvtChanStatus: int := 4
  const P_ModEvtChanMask: int := 5
  const P_ModEvtGrpStatus: int := 6
  const P_ModEvtGrpMask: int := 7
  const P_VRamp: int := 8
  const P_CRamp: int := 9
  const P_VMax: int := 10
  const P_IMax: int := 11
  const P_SupplyP5: int := 12
  const P_SupplyP12: int := 13
  const P_SupplyN12: int := 14
  const P_Temperature: int := 15
  const P_ChanStatus: int := 16
  const P_ChanEvtStatus: int := 17
  const P_ChanEvtMask: int := 18
  const P_ChanCtrl: int := 19
  const P_ChanVset: int := 20
  const P_ChanIset: int := 21
  const P_ChanVmom: int := 22
  const P_ChanImom: int := 23
  const P_ChanVBounds: int := 24
  const P_ChanIBounds: int := 25

  /** Each module P_* reason constant is the createParam number of its parameter. */
  lemma ModuleReasonNumbers()
    ensures ModStatus.Index() == P_ModStatus
    ensures ModEvtStatus.Index() == P_ModEvtStatus
    ensures ModEvtMask.Index() == P_ModEvtMask
    ensures ModCtrl.Index() == P_ModCtrl
    ensures ModEvtChanStatus.Index() == P_ModEvtChanStatus
    ensures ModEvtChanMask.Index() == P_ModEvtChanMask
    ensures ModEvtGrpStatus.Index() == P_ModEvtGrpStatus
    ensures ModEvtGrpMask.Index() == P_ModEvtGrpMask
    ensures VRamp.Index() == P_VRamp
    ensures CRamp.Index() == P_CRamp
    ensures VMax.Index() == P_VMax
    ensures IMax.Index() == P_IMax
    ensures SupplyP5.Index() == P_SupplyP5
    ensures SupplyP12.Index() == P_SupplyP12
    ensures SupplyN12.Index() == P_SupplyN12
    ensures Temperature.Index() == P_Temperature
  {
  }

  /** Each channel P_* reason constant is the createParam number of its parameter. */
  lemma ChannelReasonNumbers()
    ensures ChanStatus.Index() == P_ChanStatus
    ensures ChanEvtStatus.Index() == P_ChanEvtStatus
    ensures ChanEvtMask.Index() == P_ChanEvtMask
    ensures ChanCtrl.Index() == P_ChanCtrl
    ensures ChanVset.Index() == P_ChanVset
    ensures ChanIset.Index() == P_ChanIset
    ensures ChanVmom.Index() == P_ChanVmom
    ensures ChanImom.Index() == P_ChanImom
    ensures ChanVBounds.Index() == P_ChanVBounds
    ensures ChanIBounds.Index() == P_ChanIBounds
  {
  }

  const NumModuleParams: int := 16
  const NumParams: int := 26

  /** The parameter an asyn reason stands for, if it is one of this driver's:
      the inverse of the createParam numbering. */
  function FromIndex(reason: int): (r: Option<Param>)
    ensures r.Some? <==> 0 <= reason < NumParams
  {
    if reason == 0 then Some(ModStatus)
    else if reason == 1 then Some(ModEvtStatus)
    else if reason == 2 then Some(ModEvtMask)
    else if reason == 3 then Some(ModCtrl)
    else if reason == 4 then Some(ModEvtChanStatus)
    else if reason == 5 then Some(ModEvtChanMask)
    else if reason == 6 then Some(ModEvtGrpStatus)
    else if reason == 7 then Some(ModEvtGrpMask)
    else if reason == 8 then Some(VRamp)
    else if reason == 9 then Some(CRamp)
    else if reason == 10 then Some(VMax)
    else if reason == 11 then Some(IMax)
    else if reason == 12 then Some(SupplyP5)
    else if reason == 13 then Some(SupplyP12)
    else if reason == 14 then Some(SupplyN12)
    else if reason == 15 then Some(Temperature)
    else if reason == 16 then Some(ChanStatus)
    else if reason == 17 then Some(ChanEvtStatus)
    else if reason == 18 then Some(ChanEvtMask)
    else if reason == 19 then Some(ChanCtrl)
    else if reason == 20 then Some(ChanVset)
    else if reason == 21 then Some(ChanIset)
    else if reason == 22 then Some(ChanVmom)
    else if reason == 23 then Some(ChanImom)
    else if reason == 24 then Some(ChanVBounds)
    else if reason == 25 then Some(ChanIBounds)
    else None
  }

  /** createParam numbering and FromIndex are inverse to each other. */
  lemma IndexRoundTrip(p: Param, reason: int)
    ensures FromIndex(p.Index()) == Some(p)
    ensures FromIndex(reason) == Some(p) ==> reason == p.Index()
  {
  }

  /** Two parameters of the same region never share an offset. */
  lemma OffsetsDistinct(p: Param, q: Param)
    requires p.IsModule() == q.IsModule() && p.Offset() == q.Offset()
    ensures p == q
  {
  }
}
