/**
 * The native-to-script converters: snapshot builders that copy a struct's
 * fields, in declared order, into a record of the registered shape; the list
 * converters that fill a fresh tuple one element at a time; and the pointer
 * overloads that wrap a live native object in a handle class instead of
 * copying it.
 *
 * A converter's result is `Option<PyValue>`: None stands for the NULL the
 * native side receives when the script-side constructor raised.
 */
module Converters {
  import opened Native
  import opened PyValues
  import opened Registry

  // Items of a Py_BuildValue format, one per unit.
  function Int(n: int): Option<PyValue> { Some(PyInt(n)) }               // 'I', 'H', 'i', 'l', 'k', 'h', 'b'
  function Flt(f: Float32): Option<PyValue> { Some(PyFloat(f)) }         // 'f'
  // 's' of a narrowed string. Most builders hand the `std::string` object itself
  // to 's' rather than its `.c_str()`; the model takes the text as delivered.
  function Str(s: string): Option<PyValue> { Some(PyStr(s)) }

  /** PY_BOOL: a native bool as the canonical True or False object, passed with 'O'. */
  function Bool(b: bool): (r: Option<PyValue>)
    ensures r.Some? && r.value.PyBool? && r.value.b == b
  {
    Some(PyBool(b))
  }

  /**
   * pyConstConverter: calls convertConst(name, data). NULL data leaves the
   * script function without arguments, which raises; any raise gives NULL.
   */
  function ConstConverter(name: string, data: Option<PyValue>): (r: Option<PyValue>)
    ensures data.None? ==> r.None?
    ensures r.Some? <==> data.Some? && ConvertConst(name, data.value).Success?
    ensures r.Some? ==> r.value == ConvertConst(name, data.value).value
  {
    match data
    case None => None
    case Some(d) =>
      match ConvertConst(name, d)
      case Success(v) => Some(v)
      case Failure(_) => None
  }

  /** pyClassConverter: wraps the pointer in a capsule and calls convertClass(name, capsule). */
  function ClassConverter(name: string, ref: NativeRef): (r: Option<PyValue>)
    ensures name in CLASSES ==> r == Some(PyInstance(name, PyCapsule(ref)))
    ensures name !in CLASSES ==> r.None?
  {
    match ConvertClass(name, PyCapsule(ref))
    case Success(v) => Some(v)
    case Failure(_) => None
  }

  /** The record a successful snapshot of shape `name` holds. */
  predicate IsSnapshot(r: Option<PyValue>, name: string, values: seq<PyValue>)
  {
    name in CONSTS && |values| == |CONSTS[name]| && r == Some(PyRecord(name, values))
  }

  // ---------------------------------------------------------------------------
  // Snapshot builders

  /** A wide string crosses as a narrow `str` (the encoding step is not modelled). */
  function StringToPython(s: string): (r: Option<PyValue>)
    ensures r == Some(PyStr(s))
  {
    Str(s)
  }

  /** The Vector record (x, y, z). */
  function VectorRecord(v: Vector): PyValue
  {
    PyRecord("Vector", [PyFloat(v.x), PyFloat(v.y), PyFloat(v.z)])
  }

  /** The Quaternion record (w, x, y, z). */
  function QuaternionRecord(q: Quaternion): PyValue
  {
    PyRecord("Quaternion", [PyFloat(q.w), PyFloat(q.x), PyFloat(q.y), PyFloat(q.z)])
  }

  function VectorToPython(v: Vector): (r: Option<PyValue>)
    ensures IsSnapshot(r, "Vector", [PyFloat(v.x), PyFloat(v.y), PyFloat(v.z)])
    ensures r == Some(VectorRecord(v))
  {
    var items := [Flt(v.x), Flt(v.y), Flt(v.z)];
    BuildTupleOfValues(items, [PyFloat(v.x), PyFloat(v.y), PyFloat(v.z)]);
    ConstConverter("Vector", BuildTuple(items))
  }

  function QuaternionToPython(q: Quaternion): (r: Option<PyValue>)
    ensures IsSnapshot(r, "Quaternion", [PyFloat(q.w), PyFloat(q.x), PyFloat(q.y), PyFloat(q.z)])
    ensures r == Some(QuaternionRecord(q))
  {
    var items := [Flt(q.w), Flt(q.x), Flt(q.y), Flt(q.z)];
    BuildTupleOfValues(items, [PyFloat(q.w), PyFloat(q.x), PyFloat(q.y), PyFloat(q.z)]);
    ConstConverter("Quaternion", BuildTuple(items))
  }

  /** The orientation and position are nested snapshots, converted by their own builders. */
  function SSPObjUpdateInfoToPython(u: SSPObjUpdateInfo): (r: Option<PyValue>)
    ensures IsSnapshot(r, "SSPObjUpdateInfo",
                       [PyInt(u.iShip), QuaternionRecord(u.vDir), VectorRecord(u.vPos),
                        PyFloat(u.fTimestamp), PyFloat(u.fDunno), PyFloat(u.throttle), PyInt(u.cState)])
  {
    var dir, pos := QuaternionToPython(u.vDir), VectorToPython(u.vPos);
    var items := [Int(u.iShip), dir, pos, Flt(u.fTimestamp), Flt(u.fDunno), Flt(u.throttle), Int(u.cState)];
    BuildTupleOfValues(items, [PyInt(u.iShip), QuaternionRecord(u.vDir), VectorRecord(u.vPos),
                               PyFloat(u.fTimestamp), PyFloat(u.fDunno), PyFloat(u.throttle), PyInt(u.cState)]);
    ConstConverter("SSPObjUpdateInfo", BuildTuple(items))
  }

  function SSPObjCollisionInfoToPython(c: SSPObjCollisionInfo): (r: Option<PyValue>)
    ensures IsSnapshot(r, "SSPObjCollisionInfo",
                       [PyInt(c.iColliderObjectID), PyInt(c.iColliderSubObjID), PyInt(c.iDamagedObjectID),
                        PyInt(c.iDamagedSubObjID), PyFloat(c.fDamage)])
  {
    var items := [Int(c.iColliderObjectID), Int(c.iColliderSubObjID), Int(c.iDamagedObjectID),
                 Int(c.iDamagedSubObjID), Flt(c.fDamage)];
    BuildTupleOfValues(items, [PyInt(c.iColliderObjectID), PyInt(c.iColliderSubObjID),
                       PyInt(c.iDamagedObjectID), PyInt(c.iDamagedSubObjID), PyFloat(c.fDamage)]);
    ConstConverter("SSPObjCollisionInfo", BuildTuple(items))
  }

  /** The unconverted leading array is passed as None. */
  function SStartupInfoToPython(s: SStartupInfo): (r: Option<PyValue>)
    ensures IsSnapshot(r, "SStartupInfo", [PyNone, PyInt(s.iMaxPlayers)])
  {
    var items := [Some(PyNone), Int(s.iMaxPlayers)];
    BuildTupleOfValues(items, [PyNone, PyInt(s.iMaxPlayers)]);
    ConstConverter("SStartupInfo", BuildTuple(items))
  }

  function SLoginInfoToPython(l: SLoginInfo): (r: Option<PyValue>)
    ensures IsSnapshot(r, "SLoginInfo", [PyStr(l.wszAccount)])
  {
    var items := [Str(l.wszAccount)];
    BuildTupleOfValues(items, [PyStr(l.wszAccount)]);
    ConstConverter("SLoginInfo", BuildTuple(items))
  }

  /**
   * As written: the format "(sIII)" has four units, so only the name and the
   * first three ids are built, against a six-field shape; the constructor
   * raises and the snapshot is NULL for every input.
   */
  function SCreateCharacterInfoToPython(c: SCreateCharacterInfo): (r: Option<PyValue>)
    ensures r.None?
  {
    var items := [Str(c.wszCharname), Int(c.iNickName), Int(c.iBase), Int(c.iPackage)];
    ConstConverter("SCreateCharacterInfo", BuildTuple(items))
  }

  /** With one unit per argument, "(sIIIIO)": the six-field record the shape declares. */
  function SCreateCharacterInfoToPythonFixed(c: SCreateCharacterInfo): (r: Option<PyValue>)
    ensures IsSnapshot(r, "SCreateCharacterInfo",
                       [PyStr(c.wszCharname), PyInt(c.iNickName), PyInt(c.iBase), PyInt(c.iPackage),
                        PyInt(c.iPilot), PyNone])
  {
    var items := [Str(c.wszCharname), Int(c.iNickName), Int(c.iBase), Int(c.iPackage), Int(c.iPilot),
                 Some(PyNone)];
    BuildTupleOfValues(items, [PyStr(c.wszCharname), PyInt(c.iNickName), PyInt(c.iBase), PyInt(c.iPackage),
                       PyInt(c.iPilot), PyNone]);
    ConstConverter("SCreateCharacterInfo", BuildTuple(items))
  }

  function XFireWeaponInfoToPython(w: XFireWeaponInfo): (r: Option<PyValue>)
    ensures IsSnapshot(r, "XFireWeaponInfo",
                       [PyInt(w.iDunno1), VectorRecord(w.vDirection), PyInt(w.iDunno2),
                        PyInt(w.sArray1), PyInt(w.sArray2), PyInt(w.s3)])
  {
    var direction := VectorToPython(w.vDirection);
    var items := [Int(w.iDunno1), direction, Int(w.iDunno2), Int(w.sArray1), Int(w.sArray2), Int(w.s3)];
    BuildTupleOfValues(items, [PyInt(w.iDunno1), VectorRecord(w.vDirection), PyInt(w.iDunno2),
                               PyInt(w.sArray1), PyInt(w.sArray2), PyInt(w.s3)]);
    ConstConverter("XFireWeaponInfo", BuildTuple(items))
  }

  function XActivateEquipToPython(e: XActivateEquip): (r: Option<PyValue>)
    ensures IsSnapshot(r, "XActivateEquip", [PyInt(e.iSpaceID), PyInt(e.sID), PyBool(e.bActivate)])
  {
    var items := [Int(e.iSpaceID), Int(e.sID), Bool(e.bActivate)];
    BuildTupleOfValues(items, [PyInt(e.iSpaceID), PyInt(e.sID), PyBool(e.bActivate)]);
    ConstConverter("XActivateEquip", BuildTuple(items))
  }

  function XActivateCruiseToPython(c: XActivateCruise): (r: Option<PyValue>)
    ensures IsSnapshot(r, "XActivateCruise", [PyInt(c.iShip), PyBool(c.bActivate)])
  {
    var items := [Int(c.iShip), Bool(c.bActivate)];
    BuildTupleOfValues(items, [PyInt(c.iShip), PyBool(c.bActivate)]);
    ConstConverter("XActivateCruise", BuildTuple(items))
  }

  function XActivateThrustersToPython(t: XActivateThrusters): (r: Option<PyValue>)
    ensures IsSnapshot(r, "XActivateThrusters", [PyInt(t.iShip), PyBool(t.bActivate)])
  {
    var items := [Int(t.iShip), Bool(t.bActivate)];
    BuildTupleOfValues(items, [PyInt(t.iShip), PyBool(t.bActivate)]);
    ConstConverter("XActivateThrusters", BuildTuple(items))
  }

  function XSetTargetToPython(t: XSetTarget): (r: Option<PyValue>)
    ensures IsSnapshot(r, "XSetTarget", [PyInt(t.iShip), PyInt(t.iSlot), PyInt(t.iSpaceID), PyInt(t.iSubObjID)])
  {
    var items := [Int(t.iShip), Int(t.iSlot), Int(t.iSpaceID), Int(t.iSubObjID)];
    BuildTupleOfValues(items, [PyInt(t.iShip), PyInt(t.iSlot), PyInt(t.iSpaceID), PyInt(t.iSubObjID)]);
    ConstConverter("XSetTarget", BuildTuple(items))
  }

  function XGoTradelaneToPython(g: XGoTradelane): (r: Option<PyValue>)
    ensures IsSnapshot(r, "XGoTradelane",
                       [PyInt(g.iShip), PyInt(g.iTradelaneSpaceObj1), PyInt(g.iTradelaneSpaceObj2)])
  {
    var items := [Int(g.iShip), Int(g.iTradelaneSpaceObj1), Int(g.iTradelaneSpaceObj2)];
    BuildTupleOfValues(items, [PyInt(g.iShip), PyInt(g.iTradelaneSpaceObj1), PyInt(g.iTradelaneSpaceObj2)]);
    ConstConverter("XGoTradelane", BuildTuple(items))
  }

  function XJettisonCargoToPython(j: XJettisonCargo): (r: Option<PyValue>)
    ensures IsSnapshot(r, "XJettisonCargo", [PyInt(j.iShip), PyInt(j.iSlot), PyInt(j.iCount)])
  {
    var items := [Int(j.iShip), Int(j.iSlot), Int(j.iCount)];
    BuildTupleOfValues(items, [PyInt(j.iShip), PyInt(j.iSlot), PyInt(j.iCount)]);
    ConstConverter("XJettisonCargo", BuildTuple(items))
  }

  function XSetManeuverToPython(m: XSetManeuver): (r: Option<PyValue>)
    ensures IsSnapshot(r, "XSetManeuver", [PyInt(m.iShipFrom), PyInt(m.IShipTo), PyInt(m.iFlag)])
  {
    var items := [Int(m.iShipFrom), Int(m.IShipTo), Int(m.iFlag)];
    BuildTupleOfValues(items, [PyInt(m.iShipFrom), PyInt(m.IShipTo), PyInt(m.iFlag)]);
    ConstConverter("XSetManeuver", BuildTuple(items))
  }

  function SGFGoodSellInfoToPython(g: SGFGoodSellInfo): (r: Option<PyValue>)
    ensures IsSnapshot(r, "SGFGoodSellInfo", [PyInt(g.l1), PyInt(g.iArchID), PyInt(g.iCount)])
  {
    var items := [Int(g.l1), Int(g.iArchID), Int(g.iCount)];
    BuildTupleOfValues(items, [PyInt(g.l1), PyInt(g.iArchID), PyInt(g.iCount)]);
    ConstConverter("SGFGoodSellInfo", BuildTuple(items))
  }

  function SGFGoodBuyInfoToPython(g: SGFGoodBuyInfo): (r: Option<PyValue>)
    ensures IsSnapshot(r, "SGFGoodBuyInfo", [PyInt(g.iBaseID), PyInt(g.lNull), PyInt(g.iGoodID), PyInt(g.iCount)])
  {
    var items := [Int(g.iBaseID), Int(g.lNull), Int(g.iGoodID), Int(g.iCount)];
    BuildTupleOfValues(items, [PyInt(g.iBaseID), PyInt(g.lNull), PyInt(g.iGoodID), PyInt(g.iCount)]);
    ConstConverter("SGFGoodBuyInfo", BuildTuple(items))
  }

  function SSPMunitionCollisionInfoToPython(m: SSPMunitionCollisionInfo): (r: Option<PyValue>)
    ensures IsSnapshot(r, "SSPMunitionCollisionInfo",
                       [PyInt(m.iProjectileArchID), PyInt(m.dw2), PyInt(m.dwTargetShip), PyInt(m.s1)])
  {
    var items := [Int(m.iProjectileArchID), Int(m.dw2), Int(m.dwTargetShip), Int(m.s1)];
    BuildTupleOfValues(items, [PyInt(m.iProjectileArchID), PyInt(m.dw2), PyInt(m.dwTargetShip), PyInt(m.s1)]);
    ConstConverter("SSPMunitionCollisionInfo", BuildTuple(items))
  }

  function EquipDescToPython(e: EquipDesc): (r: Option<PyValue>)
    ensures IsSnapshot(r, "EquipDesc",
                       [PyInt(e.iDunno), PyInt(e.sID), PyInt(e.iArchID), PyBool(e.bMounted), PyFloat(e.fHealth),
                        PyInt(e.iCount), PyBool(e.bMission), PyInt(e.iOwner)])
  {
    var items := [Int(e.iDunno), Int(e.sID), Int(e.iArchID), Bool(e.bMounted), Flt(e.fHealth), Int(e.iCount),
                 Bool(e.bMission), Int(e.iOwner)];
    BuildTupleOfValues(items, [PyInt(e.iDunno), PyInt(e.sID), PyInt(e.iArchID), PyBool(e.bMounted),
                       PyFloat(e.fHealth), PyInt(e.iCount), PyBool(e.bMission), PyInt(e.iOwner)]);
    ConstConverter("EquipDesc", BuildTuple(items))
  }

  function CharacterIdToPython(c: CharacterId): (r: Option<PyValue>)
    ensures IsSnapshot(r, "CHARACTER_ID", [PyStr(c.szCharFilename)])
  {
    var items := [Str(c.szCharFilename)];
    BuildTupleOfValues(items, [PyStr(c.szCharFilename)]);
    ConstConverter("CHARACTER_ID", BuildTuple(items))
  }

  function CargoInfoToPython(c: CargoInfo): (r: Option<PyValue>)
    ensures IsSnapshot(r, "CARGO_INFO",
                       [PyInt(c.iID), PyInt(c.iCount), PyInt(c.iArchID), PyFloat(c.fStatus),
                        PyBool(c.bMission), PyBool(c.bMounted)])
  {
    var items := [Int(c.iID), Int(c.iCount), Int(c.iArchID), Flt(c.fStatus), Bool(c.bMission), Bool(c.bMounted)];
    BuildTupleOfValues(items, [PyInt(c.iID), PyInt(c.iCount), PyInt(c.iArchID), PyFloat(c.fStatus),
                       PyBool(c.bMission), PyBool(c.bMounted)]);
    ConstConverter("CARGO_INFO", BuildTuple(items))
  }

  function MoneyFixToPython(m: MoneyFix): (r: Option<PyValue>)
    ensures IsSnapshot(r, "MONEY_FIX", [PyStr(m.wscCharname), PyInt(m.iAmount)])
  {
    var items := [Str(m.wscCharname), Int(m.iAmount)];
    BuildTupleOfValues(items, [PyStr(m.wscCharname), PyInt(m.iAmount)]);
    ConstConverter("MONEY_FIX", BuildTuple(items))
  }

  function IgnoreInfoToPython(i: IgnoreInfo): (r: Option<PyValue>)
    ensures IsSnapshot(r, "IGNORE_INFO", [PyStr(i.wscCharname), PyStr(i.wscFlags)])
  {
    var items := [Str(i.wscCharname), Str(i.wscFlags)];
    BuildTupleOfValues(items, [PyStr(i.wscCharname), PyStr(i.wscFlags)]);
    ConstConverter("IGNORE_INFO", BuildTuple(items))
  }

  function ResolveIpToPython(r0: ResolveIp): (r: Option<PyValue>)
    ensures IsSnapshot(r, "RESOLVE_IP", [PyInt(r0.iClientID), PyInt(r0.iConnects), PyStr(r0.wscIP), PyStr(r0.wscHostname)])
  {
    var items := [Int(r0.iClientID), Int(r0.iConnects), Str(r0.wscIP), Str(r0.wscHostname)];
    BuildTupleOfValues(items, [PyInt(r0.iClientID), PyInt(r0.iConnects), PyStr(r0.wscIP), PyStr(r0.wscHostname)]);
    ConstConverter("RESOLVE_IP", BuildTuple(items))
  }

  function HkPlayerInfoToPython(p: HkPlayerInfo): (r: Option<PyValue>)
    ensures IsSnapshot(r, "HKPLAYERINFO",
                       [PyInt(p.iClientID), PyStr(p.wscCharname), PyStr(p.wscBase), PyStr(p.wscSystem),
                        PyInt(p.iSystem), PyInt(p.iShip), PyStr(p.wscIP), PyStr(p.wscHostname)])
  {
    var items := [Int(p.iClientID), Str(p.wscCharname), Str(p.wscBase), Str(p.wscSystem), Int(p.iSystem),
                 Int(p.iShip), Str(p.wscIP), Str(p.wscHostname)];
    BuildTupleOfValues(items, [PyInt(p.iClientID), PyStr(p.wscCharname), PyStr(p.wscBase), PyStr(p.wscSystem),
                       PyInt(p.iSystem), PyInt(p.iShip), PyStr(p.wscIP), PyStr(p.wscHostname)]);
    ConstConverter("HKPLAYERINFO", BuildTuple(items))
  }

  function DamageEntryToPython(d: DamageEntry): (r: Option<PyValue>)
    ensures IsSnapshot(r, "DamageEntry", [PyInt(d.subobj), PyFloat(d.health), PyInt(d.fate)])
  {
    var items := [Int(d.subobj), Flt(d.health), Int(d.fate)];
    BuildTupleOfValues(items, [PyInt(d.subobj), PyFloat(d.health), PyInt(d.fate)]);
    ConstConverter("DamageEntry", BuildTuple(items))
  }

  function SSPUseItemToPython(u: SSPUseItem): (r: Option<PyValue>)
    ensures IsSnapshot(r, "SSPUseItem", [PyInt(u.obj), PyInt(u.hpid), PyInt(u.quantity)])
  {
    var items := [Int(u.obj), Int(u.hpid), Int(u.quantity)];
    BuildTupleOfValues(items, [PyInt(u.obj), PyInt(u.hpid), PyInt(u.quantity)]);
    ConstConverter("SSPUseItem", BuildTuple(items))
  }

  // ---------------------------------------------------------------------------
  // Field access on snapshots

  /** A snapshot answers each field name of its shape with the value built at that position. */
  lemma SnapshotField(r: Option<PyValue>, name: string, values: seq<PyValue>, i: nat)
    requires IsSnapshot(r, name, values) && i < |values|
    ensures RecordField(r.value, CONSTS[name][i]) == Some(values[i])
  {
    ConvertConstPositional(name, values, i);
  }

  /** Native bools reach scripts as True or False, never as the integers 0 and 1. */
  lemma ActivateEquipFlagCanonical(e: XActivateEquip)
    ensures RecordField(XActivateEquipToPython(e).value, "bActivate") == Some(PyBool(e.bActivate))
  {
    SnapshotField(XActivateEquipToPython(e), "XActivateEquip", [PyInt(e.iSpaceID), PyInt(e.sID), PyBool(e.bActivate)], 2);
  }

  lemma ActivateCruiseFlagCanonical(c: XActivateCruise)
    ensures RecordField(XActivateCruiseToPython(c).value, "bActivate") == Some(PyBool(c.bActivate))
  {
    SnapshotField(XActivateCruiseToPython(c), "XActivateCruise", [PyInt(c.iShip), PyBool(c.bActivate)], 1);
  }

  lemma ActivateThrustersFlagCanonical(t: XActivateThrusters)
    ensures RecordField(XActivateThrustersToPython(t).value, "bActivate") == Some(PyBool(t.bActivate))
  {
    SnapshotField(XActivateThrustersToPython(t), "XActivateThrusters", [PyInt(t.iShip), PyBool(t.bActivate)], 1);
  }

  lemma EquipDescFlagsCanonical(e: EquipDesc)
    ensures RecordField(EquipDescToPython(e).value, "bMounted") == Some(PyBool(e.bMounted))
    ensures RecordField(EquipDescToPython(e).value, "bMission") == Some(PyBool(e.bMission))
  {
    var values := [PyInt(e.iDunno), PyInt(e.sID), PyInt(e.iArchID), PyBool(e.bMounted), PyFloat(e.fHealth),
                   PyInt(e.iCount), PyBool(e.bMission), PyInt(e.iOwner)];
    SnapshotField(EquipDescToPython(e), "EquipDesc", values, 3);
    SnapshotField(EquipDescToPython(e), "EquipDesc", values, 6);
  }

  lemma CargoFlagsCanonical(c: CargoInfo)
    ensures RecordField(CargoInfoToPython(c).value, "bMission") == Some(PyBool(c.bMission))
    ensures RecordField(CargoInfoToPython(c).value, "bMounted") == Some(PyBool(c.bMounted))
  {
    var values := [PyInt(c.iID), PyInt(c.iCount), PyInt(c.iArchID), PyFloat(c.fStatus),
                   PyBool(c.bMission), PyBool(c.bMounted)];
    SnapshotField(CargoInfoToPython(c), "CARGO_INFO", values, 4);
    SnapshotField(CargoInfoToPython(c), "CARGO_INFO", values, 5);
  }

  /** Signed fields are built with 'i': a negative count or amount reaches scripts negative. */
  lemma CargoCountKeepsSign(c: CargoInfo)
    ensures RecordField(CargoInfoToPython(c).value, "iCount") == Some(PyInt(c.iCount))
  {
    SnapshotField(CargoInfoToPython(c), "CARGO_INFO",
                  [PyInt(c.iID), PyInt(c.iCount), PyInt(c.iArchID), PyFloat(c.fStatus),
                   PyBool(c.bMission), PyBool(c.bMounted)], 1);
  }

  lemma GoodSellCountKeepsSign(g: SGFGoodSellInfo)
    ensures RecordField(SGFGoodSellInfoToPython(g).value, "iCount") == Some(PyInt(g.iCount))
  {
    SnapshotField(SGFGoodSellInfoToPython(g), "SGFGoodSellInfo", [PyInt(g.l1), PyInt(g.iArchID), PyInt(g.iCount)], 2);
  }

  lemma MoneyFixAmountKeepsSign(m: MoneyFix)
    ensures RecordField(MoneyFixToPython(m).value, "iAmount") == Some(PyInt(m.iAmount))
  {
    SnapshotField(MoneyFixToPython(m), "MONEY_FIX", [PyStr(m.wscCharname), PyInt(m.iAmount)], 1);
  }

  // ---------------------------------------------------------------------------
  // List converters: a fresh tuple of the list's length, filled front to back

  /** The tuple a `list<CARGO_INFO>` converts to: element i is the snapshot of the i-th entry. */
  function CargoTuple(lst: seq<CargoInfo>): (r: PyValue)
    ensures r.PyTuple? && |r.items| == |lst|
    ensures forall i :: 0 <= i < |lst| ==> Some(r.items[i]) == CargoInfoToPython(lst[i])
  {
    PyTuple(seq(|lst|, i requires 0 <= i < |lst| => CargoInfoToPython(lst[i]).value))
  }

  /** The tuple a `list<uint>` converts to: the same numbers, in order. */
  function UIntTuple(lst: seq<uint32>): (r: PyValue)
    ensures r.PyTuple? && |r.items| == |lst|
    ensures forall i :: 0 <= i < |lst| ==> r.items[i] == PyInt(lst[i])
  {
    PyTuple(seq(|lst|, i requires 0 <= i < |lst| => PyInt(lst[i])))
  }

  /** The tuple a `list<DamageEntry>` converts to: element i is the snapshot of the i-th entry. */
  function DamageEntriesTuple(lst: seq<DamageEntry>): (r: PyValue)
    ensures r.PyTuple? && |r.items| == |lst|
    ensures forall i :: 0 <= i < |lst| ==> Some(r.items[i]) == DamageEntryToPython(lst[i])
  {
    PyTuple(seq(|lst|, i requires 0 <= i < |lst| => DamageEntryToPython(lst[i]).value))
  }

  method CargoListToPython(lst: seq<CargoInfo>) returns (r: PyValue)
    ensures r == CargoTuple(lst)
  {
    var tuple := new PyValue[|lst|](_ => PyNone);
    var i := 0;
    while i < |lst|
      invariant 0 <= i <= |lst|
      invariant forall j :: 0 <= j < i ==> Some(tuple[j]) == CargoInfoToPython(lst[j])
    {
      tuple[i] := CargoInfoToPython(lst[i]).value;
      i := i + 1;
    }
    r := PyTuple(tuple[..]);
  }

  method UIntListToPython(lst: seq<uint32>) returns (r: PyValue)
    ensures r == UIntTuple(lst)
  {
    var tuple := new PyValue[|lst|](_ => PyNone);
    var i := 0;
    while i < |lst|
      invariant 0 <= i <= |lst|
      invariant forall j :: 0 <= j < i ==> tuple[j] == PyInt(lst[j])
    {
      tuple[i] := PyInt(lst[i]);
      i := i + 1;
    }
    r := PyTuple(tuple[..]);
  }

  method DamageEntryListToPython(lst: seq<DamageEntry>) returns (r: PyValue)
    ensures r == DamageEntriesTuple(lst)
  {
    var tuple := new PyValue[|lst|](_ => PyNone);
    var i := 0;
    while i < |lst|
      invariant 0 <= i <= |lst|
      invariant forall j :: 0 <= j < i ==> Some(tuple[j]) == DamageEntryToPython(lst[j])
    {
      tuple[i] := DamageEntryToPython(lst[i]).value;
      i := i + 1;
    }
    r := PyTuple(tuple[..]);
  }

  // ---------------------------------------------------------------------------
  // Pointer overloads: live handles instead of snapshots

  function VectorHandle(v: LiveVector): (r: Option<PyValue>)
    ensures r == Some(PyInstance("Vector", PyCapsule(VectorRef(v))))
  {
    ClassConverter("Vector", VectorRef(v))
  }

  function QuaternionHandle(q: LiveQuaternion): (r: Option<PyValue>)
    ensures r == Some(PyInstance("Quaternion", PyCapsule(QuaternionRef(q))))
  {
    ClassConverter("Quaternion", QuaternionRef(q))
  }

  function DamageListHandle(d: LiveDamageList): (r: Option<PyValue>)
    ensures r == Some(PyInstance("DamageList", PyCapsule(DamageListRef(d))))
  {
    ClassConverter("DamageList", DamageListRef(d))
  }

  function ClientInfoHandle(c: LiveClientInfo): (r: Option<PyValue>)
    ensures r == Some(PyInstance("ClientInfo", PyCapsule(ClientInfoRef(c))))
  {
    ClassConverter("ClientInfo", ClientInfoRef(c))
  }

  /** A handle is not a snapshot: no registered shape accepts it, and it names the object, not its fields. */
  lemma HandlesAreNotSnapshots(v: LiveVector, values: seq<PyValue>)
    ensures VectorHandle(v) != Some(PyRecord("Vector", values))
    ensures ConvertConst("Vector", VectorHandle(v).value).Failure?
  {
  }
}
