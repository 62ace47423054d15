/** The table from a device id reported in discovery to the device family and model name. */
module DeviceInfo {

  /** The `BroadlinkType` enumeration: the device families the app knows. */
  datatype BroadlinkType =
    | Unknown | SP1 | SP2 | SP3Plus | RM | RMPlus | A1 | MP1 | Hysen | S1C | Dooya | RM4Mini | RM4Pro

  /** The number each family has in the enumeration. */
  function TypeCode(t: BroadlinkType): (code: int)
    ensures 0 <= code <= 12
    ensures code == 0 <==> t == Unknown
  {
    match t
    case Unknown => 0
    case SP1 => 1
    case SP2 => 2
    case SP3Plus => 3
    case RM => 4
    case RMPlus => 5
    case A1 => 6
    case MP1 => 7
    case Hysen => 8
    case S1C => 9
    case Dooya => 10
    case RM4Mini => 11
    case RM4Pro => 12
  }

  /** The record `devType2Info` returns; `kind` is its `type` field. */
  datatype Info = Info(deviceId: int, kind: BroadlinkType, isCompatible: bool, name: string)

  /** The ids that the cases of the switch name for each family. */
  function SwitchIds(t: BroadlinkType): set<int>
  {
    match t
    case Unknown => {}
    case SP1 => {0x0000}
    case SP2 => {
      0x2711, 0x2719, 0x7919, 0x271a, 0x791a, 0x2720, 0x753e, 0x2728, 0x2733,
      0x273e, 0x2736, 0x7D00
    }
    case SP3Plus => {0x947a, 0x9479}
    case RM => {0x2712, 0x2737, 0x273d, 0x2783, 0x277c, 0x278f, 0x2797, 0x5F36}
    case RMPlus => {0x272a, 0x2787, 0x278b, 0x279d, 0x27a9, 0x27a1, 0x27a6}
    case A1 => {0x2714}
    case MP1 => {0x4EB5, 0x4EF7}
    case Hysen => {0x4EAD}
    case S1C => {0x2722}
    case Dooya => {0x4E4D}
    case RM4Mini => {
      0x51DA, 0x5209, 0x520C, 0x520D, 0x5211, 0x5212, 0x5216, 0x521C, 0x6070,
      0x610E, 0x610F, 0x62BC, 0x62BE, 0x6364, 0x648D, 0x6539, 0x653A
    }
    case RM4Pro => {0x520B, 0x5213, 0x5218, 0x6026, 0x6184, 0x61A2, 0x649B, 0x653C}
  }

  /** OEM SPMini2 sockets: the range checked before the switch. */
  predicate InOemRange(devId: int) { 0x7530 <= devId <= 0x7918 }

  function DevType2Info(devId: int): (info: Info)
    ensures info.deviceId == devId && !info.isCompatible && info.name != ""
    ensures InOemRange(devId) ==> info.kind == SP2 && info.name == "SPMini2 (OEM)"
  {
    if InOemRange(devId) then Info(devId, SP2, false, "SPMini2 (OEM)")
    else
      match devId
      case 0x0000 => Info(devId, SP1, false, "SP1")
      case 0x2711 => Info(devId, SP2, false, "SP2")
      case 0x2719 => Info(devId, SP2, false, "Honeywell SP2")
      case 0x7919 => Info(devId, SP2, false, "Honeywell SP2")
      case 0x271a => Info(devId, SP2, false, "Honeywell SP2")
      case 0x791a => Info(devId, SP2, false, "Honeywell SP2")
      case 0x2720 => Info(devId, SP2, false, "SPMini")
      case 0x753e => Info(devId, SP2, false, "SP3")
      case 0x2728 => Info(devId, SP2, false, "SPMini2")
      case 0x2733 => Info(devId, SP2, false, "OEM branded SPMini")
      case 0x273e => Info(devId, SP2, false, "OEM branded SPMini")
      case 0x2736 => Info(devId, SP2, false, "SPMiniPlus")
      case 0x7D00 => Info(devId, SP2, false, "OEM branded SP3")
      case 0x947a => Info(devId, SP3Plus, false, "SP3S")
      case 0x9479 => Info(devId, SP3Plus, false, "SP3S")
      case 0x2712 => Info(devId, RM, false, "RM2")
      case 0x2737 => Info(devId, RM, false, "RM Mini")
      case 0x273d => Info(devId, RM, false, "RM Pro Phicomm")
      case 0x2783 => Info(devId, RM, false, "RM2 Home Plus")
      case 0x277c => Info(devId, RM, false, "RM2 Home Plus GDT")
      case 0x278f => Info(devId, RM, false, "RM Mini Shate")
      case 0x2797 => Info(devId, RM, false, "RM2 Pro HYC")
      case 0x5F36 => Info(devId, RM, false, "RM Mini 3 Red Bean")
      case 0x272a => Info(devId, RMPlus, false, "RM2 Pro Plus")
      case 0x2787 => Info(devId, RMPlus, false, "RM2 Pro Plus2")
      case 0x278b => Info(devId, RMPlus, false, "RM2 Pro Plus BL")
      case 0x279d => Info(devId, RMPlus, false, "RM3 Pro Plus")
      case 0x27a9 => Info(devId, RMPlus, false, "RM2 Pro Plus_300")
      case 0x27a1 => Info(devId, RMPlus, false, "RM2 Pro Plus R1")
      case 0x27a6 => Info(devId, RMPlus, false, "RM2 Pro PP")
      case 0x2714 => Info(devId, A1, false, "A1")
      case 0x4EB5 => Info(devId, MP1, false, "MP1")
      case 0x4EF7 => Info(devId, MP1, false, "Hontar MP1")
      case 0x4EAD => Info(devId, Hysen, false, "Thermostat")
      case 0x2722 => Info(devId, S1C, false, "S1 (SmartOne Alarm Kit)")
      case 0x4E4D => Info(devId, Dooya, false, "Dooya DT360E (DOOYA_CURTAIN_V2)")
      case 0x51DA => Info(devId, RM4Mini, false, "RM4 mini")
      case 0x5209 => Info(devId, RM4Mini, false, "RM4 TV mate")
      case 0x520C => Info(devId, RM4Mini, false, "RM4 mini")
      case 0x520D => Info(devId, RM4Mini, false, "RM4C mini")
      case 0x5211 => Info(devId, RM4Mini, false, "RM4C mate")
      case 0x5212 => Info(devId, RM4Mini, false, "RM4 TV mate")
      case 0x5216 => Info(devId, RM4Mini, false, "RM4 mini")
      case 0x521C => Info(devId, RM4Mini, false, "RM4 mini")
      case 0x6070 => Info(devId, RM4Mini, false, "RM4C mini")
      case 0x610E => Info(devId, RM4Mini, false, "RM4 mini")
      case 0x610F => Info(devId, RM4Mini, false, "RM4C mini")
      case 0x62BC => Info(devId, RM4Mini, false, "RM4 mini")
      case 0x62BE => Info(devId, RM4Mini, false, "RM4C mini")
      case 0x6364 => Info(devId, RM4Mini, false, "RM4S")
      case 0x648D => Info(devId, RM4Mini, false, "RM4 mini")
      case 0x6539 => Info(devId, RM4Mini, false, "RM4C mini")
      case 0x653A => Info(devId, RM4Mini, false, "RM4 mini")
      case 0x520B => Info(devId, RM4Pro, false, "RM4 pro")
      case 0x5213 => Info(devId, RM4Pro, false, "RM4 pro")
      case 0x5218 => Info(devId, RM4Pro, false, "RM4C pro")
      case 0x6026 => Info(devId, RM4Pro, false, "RM4 pro")
      case 0x6184 => Info(devId, RM4Pro, false, "RM4C pro")
      case 0x61A2 => Info(devId, RM4Pro, false, "RM4 pro")
      case 0x649B => Info(devId, RM4Pro, false, "RM4 pro")
      case 0x653C => Info(devId, RM4Pro, false, "RM4 pro")
      case _ => Info(devId, Unknown, false, "unknown")
  }

  /** Outside the OEM range, an id belongs to a family exactly when a case of that family names it. */
  lemma FamilyIff(devId: int, t: BroadlinkType)
    requires !InOemRange(devId) && t != Unknown
    ensures DevType2Info(devId).kind == t <==> devId in SwitchIds(t)
  {
    if devId in SwitchIds(t) {
      NamedIdsReported(devId, t);
    }
    ReportedIdsNamed(devId);
  }

  /** Every id a case names is reported as that case's family. */
  lemma NamedIdsReported(devId: int, t: BroadlinkType)
    requires !InOemRange(devId) && devId in SwitchIds(t)
    ensures DevType2Info(devId).kind == t
  {
    if t in {SP1, SP2, SP3Plus} {
      NamedSocketsReported(devId, t);
    } else if t in {RM, RMPlus} {
      NamedRemotesReported(devId, t);
    } else if t == RM4Mini {
      NamedRm4MiniReported(devId);
    } else if t == RM4Pro {
      NamedRm4ProReported(devId);
    } else {
      NamedOthersReported(devId, t);
    }
  }

  lemma NamedSocketsReported(devId: int, t: BroadlinkType)
    requires !InOemRange(devId) && devId in SwitchIds(t) && t in {SP1, SP2, SP3Plus}
    ensures DevType2Info(devId).kind == t
  {
    match t
    case SP1 =>
    case SP2 =>
    case SP3Plus =>
  }

  lemma NamedRemotesReported(devId: int, t: BroadlinkType)
    requires devId in SwitchIds(t) && t in {RM, RMPlus}
    ensures DevType2Info(devId).kind == t
  {
    match t
    case RM =>
    case RMPlus =>
  }

  lemma NamedRm4MiniReported(devId: int)
    requires devId in SwitchIds(RM4Mini)
    ensures DevType2Info(devId).kind == RM4Mini
  {
  }

  lemma NamedRm4ProReported(devId: int)
    requires devId in SwitchIds(RM4Pro)
    ensures DevType2Info(devId).kind == RM4Pro
  {
  }

  lemma NamedOthersReported(devId: int, t: BroadlinkType)
    requires devId in SwitchIds(t) && t in {A1, MP1, Hysen, S1C, Dooya}
    ensures DevType2Info(devId).kind == t
  {
    match t
    case A1 =>
    case MP1 =>
    case Hysen =>
    case S1C =>
    case Dooya =>
  }

  /** A family reported outside the range is one whose case names the id. */
  lemma ReportedIdsNamed(devId: int)
    requires !InOemRange(devId)
    ensures DevType2Info(devId).kind != Unknown ==> devId in SwitchIds(DevType2Info(devId).kind)
  {
  }

  /** An id is reported unknown exactly when neither the range nor any case of the switch names it. */
  lemma UnknownIff(devId: int)
    ensures DevType2Info(devId).kind == Unknown <==>
      !InOemRange(devId) && forall t :: devId !in SwitchIds(t)
    ensures DevType2Info(devId).kind == Unknown ==> DevType2Info(devId).name == "unknown"
  {
    if !InOemRange(devId) && DevType2Info(devId).kind != Unknown {
      FamilyIff(devId, DevType2Info(devId).kind);
    }
  }

  /** The `SP3` case of the switch lies inside the OEM range, so it is never reached. */
  lemma Sp3CaseShadowed()
    ensures 0x753e in SwitchIds(SP2) && InOemRange(0x753e)
    ensures DevType2Info(0x753e).name == "SPMini2 (OEM)"
    ensures forall devId :: DevType2Info(devId).name != "SP3"
  {
  }

  /** Named groups of the switch: the Honeywell sockets, the SP3S, the Red Bean and the RM4 pro models. */
  lemma NamedGroups(devId: int)
    ensures devId in {0x2719, 0x7919, 0x271a, 0x791a} ==>
      DevType2Info(devId).kind == SP2 && DevType2Info(devId).name == "Honeywell SP2"
    ensures devId in {0x9479, 0x947a} ==>
      DevType2Info(devId).kind == SP3Plus && DevType2Info(devId).name == "SP3S"
    ensures DevType2Info(0x5F36) == Info(0x5F36, RM, false, "RM Mini 3 Red Bean")
    ensures devId in SwitchIds(RM4Pro) ==>
      DevType2Info(devId).kind == RM4Pro && DevType2Info(devId).name in {"RM4 pro", "RM4C pro"}
  {
  }
}
