/**
 * Host-side (native) types that the bridge exchanges with the script layer:
 * fixed-width integers, single-precision floats carried by their bit pattern,
 * the fixed structs that are snapshotted into records, the host's plugin
 * return code, and the four native objects that scripts reach live through
 * opaque handles.
 *
 * Struct layouts are the ones the converters read: every field that a
 * converter copies is here, with the width its format code implies; fields no
 * converter reads (padding arrays, cache strings) are not.
 */
module Native {

  type uint8 = n: int | 0 <= n < 0x100
  type uint16 = n: int | 0 <= n < 0x1_0000
  type uint32 = n: int | 0 <= n < 0x1_0000_0000
  type uint64 = n: int | 0 <= n < 0x1_0000_0000_0000_0000
  type int8 = n: int | -0x80 <= n < 0x80
  type int16 = n: int | -0x8000 <= n < 0x8000
  type int32 = n: int | -0x8000_0000 <= n < 0x8000_0000

  /** A C `float`, kept as its bit pattern: the bridge only copies floats, it never computes with them. */
  datatype Float32 = Float32(bits: bv32)

  /** PLUGIN_RETURNCODE, the directive a plugin hands back to the host's hook chain. */
  datatype ReturnCode =
    | DefaultReturnCode          // 0: carry on normally
    | SkipPlugins                // 1: skip the remaining plugins
    | SkipPluginsNoFunctionCall  // 2: skip the remaining plugins and the native call
    | NoFunctionCall             // 3: suppress only the native call
  {
    /** The enum's numeric value. */
    function Value(): (n: nat)
      ensures n < 4
      ensures (n == 0) == (this == DefaultReturnCode)
    {
      match this
      case DefaultReturnCode => 0
      case SkipPlugins => 1
      case SkipPluginsNoFunctionCall => 2
      case NoFunctionCall => 3
    }
  }

  /** HK_ERROR: 0 is success, every other code names a host failure. */
  type HkError = uint32
  const HKE_OK: HkError := 0

  // ---------------------------------------------------------------------------
  // Structs that are converted by value (snapshots)

  datatype Vector = Vector(x: Float32, y: Float32, z: Float32)
  datatype Quaternion = Quaternion(w: Float32, x: Float32, y: Float32, z: Float32)

  datatype SSPObjUpdateInfo = SSPObjUpdateInfo(iShip: uint32, vDir: Quaternion, vPos: Vector, fTimestamp: Float32,
                                               fDunno: Float32, throttle: Float32, cState: int8)
  datatype SSPObjCollisionInfo = SSPObjCollisionInfo(iColliderObjectID: uint32, iColliderSubObjID: uint32,
                                                     iDamagedObjectID: uint32, iDamagedSubObjID: uint32, fDamage: Float32)
  datatype SStartupInfo = SStartupInfo(iMaxPlayers: uint32)
  datatype SLoginInfo = SLoginInfo(wszAccount: string)
  datatype SCreateCharacterInfo = SCreateCharacterInfo(wszCharname: string, iNickName: uint32, iBase: uint32,
                                                       iPackage: uint32, iPilot: uint32)
  datatype XFireWeaponInfo = XFireWeaponInfo(iDunno1: uint32, vDirection: Vector, iDunno2: uint32,
                                             sArray1: uint16, sArray2: uint16, s3: uint16)
  datatype XActivateEquip = XActivateEquip(iSpaceID: uint32, sID: uint16, bActivate: bool)
  datatype XActivateCruise = XActivateCruise(iShip: uint32, bActivate: bool)
  datatype XActivateThrusters = XActivateThrusters(iShip: uint32, bActivate: bool)
  datatype XSetTarget = XSetTarget(iShip: uint32, iSlot: uint32, iSpaceID: uint32, iSubObjID: uint32)
  datatype XGoTradelane = XGoTradelane(iShip: uint32, iTradelaneSpaceObj1: uint32, iTradelaneSpaceObj2: uint32)
  datatype XJettisonCargo = XJettisonCargo(iShip: uint32, iSlot: uint32, iCount: uint32)
  datatype XSetManeuver = XSetManeuver(iShipFrom: uint32, IShipTo: uint32, iFlag: uint32)
  datatype SGFGoodSellInfo = SGFGoodSellInfo(l1: int32, iArchID: uint32, iCount: int32)
  datatype SGFGoodBuyInfo = SGFGoodBuyInfo(iBaseID: uint32, lNull: uint32, iGoodID: uint32, iCount: int32)
  datatype SSPMunitionCollisionInfo = SSPMunitionCollisionInfo(iProjectileArchID: uint32, dw2: uint32,
                                                               dwTargetShip: uint32, s1: uint16)
  datatype EquipDesc = EquipDesc(iDunno: uint16, sID: uint16, iArchID: uint32, bMounted: bool, fHealth: Float32,
                                 iCount: uint32, bMission: bool, iOwner: uint32)
  datatype CharacterId = CharacterId(szCharFilename: string)
  datatype CargoInfo = CargoInfo(iID: uint32, iCount: int32, iArchID: uint32, fStatus: Float32,
                                 bMission: bool, bMounted: bool)
  datatype MoneyFix = MoneyFix(wscCharname: string, iAmount: int32)
  datatype IgnoreInfo = IgnoreInfo(wscCharname: string, wscFlags: string)
  datatype ResolveIp = ResolveIp(iClientID: uint32, iConnects: uint32, wscIP: string, wscHostname: string)
  datatype HkPlayerInfo = HkPlayerInfo(iClientID: uint32, wscCharname: string, wscBase: string, wscSystem: string,
                                       iSystem: uint32, iShip: uint32, wscIP: string, wscHostname: string)
  datatype DamageEntry = DamageEntry(subobj: uint16, health: Float32, fate: uint32)
  datatype SSPUseItem = SSPUseItem(obj: uint32, hpid: int16, quantity: int16)

  // ---------------------------------------------------------------------------
  // Native objects reached live through handles: every read and write goes to
  // these fields, so two handles to one object see each other's writes.

  class LiveVector {
    var x: Float32
    var y: Float32
    var z: Float32

    constructor (v: Vector)
      ensures Value() == v
    {
      x, y, z := v.x, v.y, v.z;
    }

    /** The struct value the object currently holds. */
    function Value(): Vector
      reads this
    {
      Vector(x, y, z)
    }
  }

  class LiveQuaternion {
    var w: Float32
    var x: Float32
    var y: Float32
    var z: Float32

    constructor (q: Quaternion)
      ensures Value() == q
    {
      w, x, y, z := q.w, q.x, q.y, q.z;
    }

    function Value(): Quaternion
      reads this
    {
      Quaternion(w, x, y, z)
    }
  }

  /** The fields of a DamageList at one moment. */
  datatype DamageListValue = DamageListValue(iDunno1: uint32, damageEntries: seq<DamageEntry>, bDestroyed: bool,
                                             iDunno2: uint32, iInflictorID: uint32, iInflictorPlayerID: uint32,
                                             cause: uint32)

  /**
   * The host's DamageList. `cause` is the damage cause its accessor
   * get_cause() reports; the host class's other accessors are taken to read
   * and write the fields of the same name (get_inflictor_id / iInflictorID,
   * get_inflictor_owner_player / iInflictorPlayerID, is_destroyed / bDestroyed).
   */
  class LiveDamageList {
    var iDunno1: uint32
    var damageEntries: seq<DamageEntry>
    var bDestroyed: bool
    var iDunno2: uint32
    var iInflictorID: uint32
    var iInflictorPlayerID: uint32
    var cause: uint32

    constructor ()
      ensures damageEntries == [] && !bDestroyed
      ensures iDunno1 == iDunno2 == iInflictorID == iInflictorPlayerID == cause == 0
    {
      iDunno1, damageEntries, bDestroyed, iDunno2 := 0, [], false, 0;
      iInflictorID, iInflictorPlayerID, cause := 0, 0, 0;
    }

    function Value(): DamageListValue
      reads this
    {
      DamageListValue(iDunno1, damageEntries, bDestroyed, iDunno2, iInflictorID, iInflictorPlayerID, cause)
    }
  }

  /** The host's per-connection CLIENT_INFO record; only the fields its accessor table reads. */
  class LiveClientInfo {
    var iShip: uint32
    var iShipOld: uint32
    var tmSpawnTime: uint64
    const dmgLast: LiveDamageList   // embedded member: its address never changes
    var iTradePartner: uint32
    var bCruiseActivated: bool
    var bThrusterActivated: bool
    var bEngineKilled: bool
    var bTradelane: bool
    var iBaseEnterTime: uint32
    var iCharMenuEnterTime: uint32
    var tmKickTime: uint64
    var iLastExitedBaseID: uint32
    var bDisconnected: bool
    var bCharSelected: bool
    var tmF1Time: uint64
    var tmF1TimeDisconnect: uint64
    var bAutoBuyMissiles: bool
    var bAutoBuyMines: bool
    var bAutoBuyTorps: bool
    var bAutoBuyCD: bool
    var bAutoBuyCM: bool
    var bAutoBuyReload: bool
    var iKillsInARow: uint32
    var iConnects: uint32
    var wscHostname: string
    var bSpawnProtected: bool
    var bUseServersideHitDetection: bool

    constructor (dmg: LiveDamageList)
      ensures dmgLast == dmg
    {
      dmgLast := dmg;
    }
  }

  /** The raw pointer a capsule holds, tagged with the native type it points to. */
  datatype NativeRef =
    | VectorRef(vector: LiveVector)
    | QuaternionRef(quaternion: LiveQuaternion)
    | DamageListRef(damageList: LiveDamageList)
    | ClientInfoRef(clientInfo: LiveClientInfo)
  {
    /** The native object behind the pointer. */
    function Target(): object
    {
      match this
      case VectorRef(v) => v
      case QuaternionRef(q) => q
      case DamageListRef(d) => d
      case ClientInfoRef(c) => c
    }
  }
}
