/**
 * The script-side registries of the embedded package: CONSTS, the snapshot
 * record shapes (each a namedtuple type: a name and an ordered field list),
 * and CLASSES, the CppClass wrapper classes that live handles are wrapped in;
 * with convertConst and convertClass, the two constructors the native side
 * calls through them.
 */
module Registry {
  import opened PyValues

  // Field lists of the registered shapes, in declaration order.
  const VECTOR_FIELDS: seq<string> := ["x", "y", "z"]
  const QUATERNION_FIELDS: seq<string> := ["w", "x", "y", "z"]
  const SSP_OBJ_UPDATE_INFO_FIELDS: seq<string> :=
    ["iShip", "vDir", "vPos", "fTimestamp", "fDunno", "throttle", "cState"]
  const SSP_OBJ_COLLISION_INFO_FIELDS: seq<string> :=
    ["iColliderObjectID", "iColliderSubObjID", "iDamagedObjectID", "iDamagedSubObjID", "fDamage"]
  const S_LOGIN_INFO_FIELDS: seq<string> := ["wszAccount"]
  const S_STARTUP_INFO_FIELDS: seq<string> := ["iDunno", "iMaxPlayers"]
  const S_CREATE_CHARACTER_INFO_FIELDS: seq<string> :=
    ["wszCharname", "iNickName", "iBase", "iPackage", "iPilot", "iDunno"]
  const X_FIRE_WEAPON_INFO_FIELDS: seq<string> := ["iDunno1", "vDirection", "iDunno2", "sArray1", "sArray2", "s3"]
  const X_ACTIVATE_EQUIP_FIELDS: seq<string> := ["iSpaceID", "sID", "bActivate"]
  const X_ACTIVATE_CRUISE_FIELDS: seq<string> := ["iShip", "bActivate"]
  const X_ACTIVATE_THRUSTERS_FIELDS: seq<string> := ["iShip", "bActivate"]
  const X_SET_TARGET_FIELDS: seq<string> := ["iShip", "iSlot", "iSpaceID", "iSubObjID"]
  const X_GO_TRADELANE_FIELDS: seq<string> := ["iShip", "iTradelaneSpaceObj1", "iTradelaneSpaceObj2"]
  const X_JETTISON_CARGO_FIELDS: seq<string> := ["iShip", "iSlot", "iCount"]
  const X_SET_MANEUVER_FIELDS: seq<string> := ["iShipFrom", "IShipTo", "iFlag"]
  const SGF_GOOD_SELL_INFO_FIELDS: seq<string> := ["l1", "iArchID", "iCount"]
  const SGF_GOOD_BUY_INFO_FIELDS: seq<string> := ["iBaseID", "lNull", "iGoodID", "iCount"]
  const SSP_MUNITION_COLLISION_INFO_FIELDS: seq<string> := ["iProjectileArchID", "dw2", "dwTargetShip", "s1"]
  const EQUIP_DESC_FIELDS: seq<string> :=
    ["iDunno", "sID", "iArchID", "bMounted", "fHealth", "iCount", "bMission", "iOwner"]
  const CHARACTER_ID_FIELDS: seq<string> := ["szCharFilename"]
  const CARGO_INFO_FIELDS: seq<string> := ["iID", "iCount", "iArchID", "fStatus", "bMission", "bMounted"]
  const MONEY_FIX_FIELDS: seq<string> := ["wscCharname", "iAmount"]
  const IGNORE_INFO_FIELDS: seq<string> := ["wscCharname", "wscFlags"]
  const RESOLVE_IP_FIELDS: seq<string> := ["iClientID", "iConnects", "wscIP", "wscHostname"]
  const CLIENT_INFO_FIELDS: seq<string> := [
    "iShip", "iShipOld", "iTradePartner", "bCruiseActivated", "bThrusterActivated", "bEngineKilled",
    "bTradelane", "iBaseEnterTime", "iCharMenuEnterTime", "iLastExitedBaseID", "bDisconnected", "bCharSelected",
    "bAutoBuyMissiles", "bAutoBuyMines", "bAutoBuyTorps", "bAutoBuyCD", "bAutoBuyCM", "bAutoBuyReload",
    "iKillsInARow", "iConnects", "wscHostname", "bSpawnProtected", "bUseServersideHitDetection"]
  const HKPLAYERINFO_FIELDS: seq<string> :=
    ["iClientID", "wscCharname", "wscBase", "wscSystem", "iSystem", "iShip", "wscIP", "wscHostname"]
  const DAMAGE_ENTRY_FIELDS: seq<string> := ["subobj", "health", "fate"]
  const DAMAGE_LIST_FIELDS: seq<string> :=
    ["iDunno1", "damageentries", "bDestroyed", "iDunno2", "iInflictorID", "iInflictorPlayerID"]
  const SSP_USE_ITEM_FIELDS: seq<string> := ["object", "hpid", "quantity"]

  /** CONSTS: shape name to ordered field names. CHARACTER_ID's field list is a bare string, read as one name. */
  const CONSTS: map<string, seq<string>> := map[
    "Vector" := VECTOR_FIELDS,
    "Quaternion" := QUATERNION_FIELDS,
    "SSPObjUpdateInfo" := SSP_OBJ_UPDATE_INFO_FIELDS,
    "SSPObjCollisionInfo" := SSP_OBJ_COLLISION_INFO_FIELDS,
    "SLoginInfo" := S_LOGIN_INFO_FIELDS,
    "SStartupInfo" := S_STARTUP_INFO_FIELDS,
    "SCreateCharacterInfo" := S_CREATE_CHARACTER_INFO_FIELDS,
    "XFireWeaponInfo" := X_FIRE_WEAPON_INFO_FIELDS,
    "XActivateEquip" := X_ACTIVATE_EQUIP_FIELDS,
    "XActivateCruise" := X_ACTIVATE_CRUISE_FIELDS,
    "XActivateThrusters" := X_ACTIVATE_THRUSTERS_FIELDS,
    "XSetTarget" := X_SET_TARGET_FIELDS,
    "XGoTradelane" := X_GO_TRADELANE_FIELDS,
    "XJettisonCargo" := X_JETTISON_CARGO_FIELDS,
    "XSetManeuver" := X_SET_MANEUVER_FIELDS,
    "SGFGoodSellInfo" := SGF_GOOD_SELL_INFO_FIELDS,
    "SGFGoodBuyInfo" := SGF_GOOD_BUY_INFO_FIELDS,
    "SSPMunitionCollisionInfo" := SSP_MUNITION_COLLISION_INFO_FIELDS,
    "EquipDesc" := EQUIP_DESC_FIELDS,
    "CHARACTER_ID" := CHARACTER_ID_FIELDS,
    "CARGO_INFO" := CARGO_INFO_FIELDS,
    "MONEY_FIX" := MONEY_FIX_FIELDS,
    "IGNORE_INFO" := IGNORE_INFO_FIELDS,
    "RESOLVE_IP" := RESOLVE_IP_FIELDS,
    "CLIENT_INFO" := CLIENT_INFO_FIELDS,
    "HKPLAYERINFO" := HKPLAYERINFO_FIELDS,
    "DamageEntry" := DAMAGE_ENTRY_FIELDS,
    "DamageList" := DAMAGE_LIST_FIELDS,
    "SSPUseItem" := SSP_USE_ITEM_FIELDS
  ]

  /** The items `*args` unpacks to: tuples and records by position, strings by character. */
  function Unpack(v: PyValue): Option<seq<PyValue>>
  {
    match v
    case PyTuple(items) => Some(items)
    case PyRecord(_, values) => Some(values)
    case PyStr(s) => Some(seq(|s|, i requires 0 <= i < |s| => PyStr([s[i]])))
    case _ => None
  }

  /**
   * convertConst(name, args): `CONSTS[name](*args)`. The shape lookup comes
   * first (KeyError), then the unpacking (TypeError for a non-iterable), then
   * the namedtuple constructor (TypeError unless one value per field).
   */
  function ConvertConst(name: string, args: PyValue): (r: Result<PyValue>)
    ensures name !in CONSTS ==> r == Failure(KeyError(name))
    ensures r.Success? <==> name in CONSTS && Unpack(args).Some? && |Unpack(args).value| == |CONSTS[name]|
    ensures r.Success? ==> r.value == PyRecord(name, Unpack(args).value)
    ensures name in CONSTS && r.Failure? ==> r.error == TypeError
  {
    if name !in CONSTS then Failure(KeyError(name))
    else
      match Unpack(args)
      case None => Failure(TypeError)
      case Some(values) =>
        if |values| != |CONSTS[name]| then Failure(TypeError) else Success(PyRecord(name, values))
  }

  /** `record.field`: the value at the position of `field` in the record's shape. */
  function RecordField(rec: PyValue, field: string): Option<PyValue>
  {
    if !rec.PyRecord? || rec.shape !in CONSTS || |rec.values| != |CONSTS[rec.shape]| then None
    else
      match IndexOf(CONSTS[rec.shape], field)
      case None => None
      case Some(i) => Some(rec.values[i])
  }

  /** No shape lists a field name twice. */
  predicate FieldsDistinct(fields: seq<string>)
  {
    forall a, b :: 0 <= a < b < |fields| ==> fields[a] != fields[b]
  }

  /** Two duplicate-free lists with no name in common join into a duplicate-free list. */
  lemma DistinctJoin(a: seq<string>, b: seq<string>)
    requires FieldsDistinct(a) && FieldsDistinct(b)
    requires forall i, j :: 0 <= i < |a| && 0 <= j < |b| ==> a[i] != b[j]
    ensures FieldsDistinct(a + b)
  {
    var ab := a + b;
    forall x, y | 0 <= x < y < |ab|
      ensures ab[x] != ab[y]
    {
      if y < |a| {
        assert ab[x] == a[x] && ab[y] == a[y];
      } else if x < |a| {
        assert ab[x] == a[x] && ab[y] == b[y - |a|];
      } else {
        assert ab[x] == b[x - |a|] && ab[y] == b[y - |a|];
      }
    }
  }

  /** No name of `a` occurs in `b`. */
  predicate Disjoint(a: seq<string>, b: seq<string>)
  {
    forall i, j :: 0 <= i < |a| && 0 <= j < |b| ==> a[i] != b[j]
  }

  lemma DisjointJoin(a: seq<string>, b: seq<string>, c: seq<string>)
    requires Disjoint(a, c) && Disjoint(b, c)
    ensures Disjoint(a + b, c)
  {
    forall i, j | 0 <= i < |a + b| && 0 <= j < |c|
      ensures (a + b)[i] != c[j]
    {
      if i < |a| {
        assert (a + b)[i] == a[i];
      } else {
        assert (a + b)[i] == b[i - |a|];
      }
    }
  }

  lemma ClientInfoShapeFirstHalf()
    ensures FieldsDistinct(CLIENT_INFO_FIELDS[..12])
  {
  }

  lemma ClientInfoShapeSecondHalf()
    ensures FieldsDistinct(CLIENT_INFO_FIELDS[12..])
  {
  }

  lemma ClientInfoShapeDistinct()
    ensures FieldsDistinct(CLIENT_INFO_FIELDS)
  {
    var f := CLIENT_INFO_FIELDS;
    ClientInfoShapeFirstHalf();
    ClientInfoShapeSecondHalf();
    assert Disjoint(f[..12], f[12..]);
    DistinctJoin(f[..12], f[12..]);
    assert f[..12] + f[12..] == f;
  }

  lemma MovementShapesDistinct()
    ensures FieldsDistinct(VECTOR_FIELDS) && FieldsDistinct(QUATERNION_FIELDS)
    ensures FieldsDistinct(SSP_OBJ_UPDATE_INFO_FIELDS) && FieldsDistinct(SSP_OBJ_COLLISION_INFO_FIELDS)
    ensures FieldsDistinct(X_FIRE_WEAPON_INFO_FIELDS) && FieldsDistinct(X_ACTIVATE_EQUIP_FIELDS)
    ensures FieldsDistinct(X_ACTIVATE_CRUISE_FIELDS) && FieldsDistinct(X_ACTIVATE_THRUSTERS_FIELDS)
    ensures FieldsDistinct(X_SET_TARGET_FIELDS) && FieldsDistinct(X_GO_TRADELANE_FIELDS)
    ensures FieldsDistinct(X_JETTISON_CARGO_FIELDS) && FieldsDistinct(X_SET_MANEUVER_FIELDS)
    ensures FieldsDistinct(SSP_MUNITION_COLLISION_INFO_FIELDS) && FieldsDistinct(DAMAGE_ENTRY_FIELDS)
    ensures FieldsDistinct(DAMAGE_LIST_FIELDS) && FieldsDistinct(SSP_USE_ITEM_FIELDS)
  {
  }

  lemma AccountShapesDistinct()
    ensures FieldsDistinct(S_LOGIN_INFO_FIELDS) && FieldsDistinct(S_STARTUP_INFO_FIELDS)
    ensures FieldsDistinct(S_CREATE_CHARACTER_INFO_FIELDS) && FieldsDistinct(SGF_GOOD_SELL_INFO_FIELDS)
    ensures FieldsDistinct(SGF_GOOD_BUY_INFO_FIELDS) && FieldsDistinct(EQUIP_DESC_FIELDS)
    ensures FieldsDistinct(CHARACTER_ID_FIELDS) && FieldsDistinct(CARGO_INFO_FIELDS)
    ensures FieldsDistinct(MONEY_FIX_FIELDS) && FieldsDistinct(IGNORE_INFO_FIELDS)
    ensures FieldsDistinct(RESOLVE_IP_FIELDS) && FieldsDistinct(HKPLAYERINFO_FIELDS)
  {
  }

  /** Every registered shape has distinct field names, so each field is reached by exactly one position. */
  lemma AllShapesDistinct(name: string)
    requires name in CONSTS
    ensures FieldsDistinct(CONSTS[name])
  {
    ClientInfoShapeDistinct();
    MovementShapesDistinct();
    AccountShapesDistinct();
  }

  /**
   * A record built by convertConst from a tuple answers each field name
   * with the value that was passed at that field's position.
   */
  lemma ConvertConstPositional(name: string, values: seq<PyValue>, i: nat)
    requires name in CONSTS && |values| == |CONSTS[name]| && i < |values|
    ensures ConvertConst(name, PyTuple(values)).Success?
    ensures RecordField(ConvertConst(name, PyTuple(values)).value, CONSTS[name][i]) == Some(values[i])
  {
    AllShapesDistinct(name);
    IndexOfDistinct(CONSTS[name], i);
  }

  // ---------------------------------------------------------------------------
  // CLASSES: the wrapper classes for live handles

  /** The native attribute getters a wrapper class names as `_get_method` (every registered class has one). */
  datatype Getter = VectorGetAttr | QuaternionGetAttr | DamageListGetAttr | ClientInfoGetAttr

  /**
   * What a wrapper class has as `_set_method`: nothing (calling it raises
   * TypeError), the script function nullFunc, or a native setter.
   */
  datatype Setter = NoSetter | NullFunc | VectorSetAttr | QuaternionSetAttr

  /** What a wrapper class has as `_func_method`. */
  datatype MethodTable = NoMethods | DamageListFunctions

  /** A CppClass subclass: `_cname`, `_attr`, `_get_method`, `_set_method`, `_func_method`. */
  datatype CppClassDef = CppClassDef(cname: string, attr: seq<string>, getMethod: Getter,
                                     setMethod: Setter, funcMethod: MethodTable)

  const VECTOR_ATTR: seq<string> := ["x", "y", "z"]
  const QUATERNION_ATTR: seq<string> := ["w", "x", "y", "z"]
  const DAMAGE_LIST_ATTR: seq<string> :=
    ["iDunno1", "damageentries", "bDestroyed", "iDunno2", "iInflictorID", "iInflictorPlayerID"]
  // ClientInfo's `_attr`, in three runs of twelve (ordinals 0-11, 12-23, 24-35).
  const CLIENT_INFO_ATTR_LOW: seq<string> := [
    "iShip", "iShipOld", "tmSpawnTime", "dmgLast", "lstMoneyFix", "iTradePartner",
    "bCruiseActivated", "bThrusterActivated", "bEngineKilled", "bTradelane",
    "iBaseEnterTime", "iCharMenuEnterTime"]
  const CLIENT_INFO_ATTR_MID: seq<string> := [
    "tmKickTime", "iLastExitedBaseID",
    "bDisconnected", "bCharSelected", "tmF1Time", "tmF1TimeDisconnect", "lstIgnore",
    "dieMsg", "dieMsgSize", "dieMsgStyle", "chatSize", "chatStyle"]
  const CLIENT_INFO_ATTR_HIGH: seq<string> := [
    "bAutoBuyMissiles", "bAutoBuyMines", "bAutoBuyTorps", "bAutoBuyCD", "bAutoBuyCM",
    "bAutoBuyReload", "iKillsInARow",
    "iConnects", "wscHostname", "bSpawnProtected", "bUseServersideHitDetection",
    "unused_data"]
  const CLIENT_INFO_ATTR: seq<string> := CLIENT_INFO_ATTR_LOW + CLIENT_INFO_ATTR_MID + CLIENT_INFO_ATTR_HIGH

  const CLASSES: map<string, CppClassDef> := map[
    "Vector" := CppClassDef("Vector", VECTOR_ATTR, VectorGetAttr, VectorSetAttr, NoMethods),
    "Quaternion" := CppClassDef("Quaternion", QUATERNION_ATTR, QuaternionGetAttr, QuaternionSetAttr, NoMethods),
    "DamageList" := CppClassDef("DamageList", DAMAGE_LIST_ATTR, DamageListGetAttr, NullFunc, DamageListFunctions),
    "ClientInfo" := CppClassDef("ClientInfo", CLIENT_INFO_ATTR, ClientInfoGetAttr, NoSetter, NoMethods)
  ]

  /**
   * The names CppClass itself answers, `hasattr(CppClass, key)` under Python
   * 2.7: its own class attributes and methods, those every new-style class
   * inherits from `object`, and those the class object finds on its metaclass
   * `type`. (`type`'s `__abstractmethods__` is absent: reading it from a class
   * that never set it raises AttributeError, so hasattr answers False.)
   */
  const CPPCLASS_NAMES: set<string> := CPPCLASS_OWN_NAMES + OBJECT_NAMES + {"mro"} + TYPE_NAMES

  /** The names CppClass's body defines, and the slots Python adds to its dictionary. */
  const CPPCLASS_OWN_NAMES: set<string> := {
    "_ptr", "_cname", "_attr", "_get_method", "_set_method", "_func_method",
    "__init__", "__setattr__", "__getattr__", "__delattr__",
    "__dict__", "__module__", "__weakref__", "__doc__"
  }

  /** The names every new-style class inherits from `object`. */
  const OBJECT_NAMES: set<string> := {
    "__class__", "__format__", "__getattribute__", "__hash__", "__new__", "__reduce__",
    "__reduce_ex__", "__repr__", "__sizeof__", "__str__", "__subclasshook__"
  }

  /** The names a class object finds on `type` besides `mro` and those `object` already gives. */
  const TYPE_NAMES: set<string> := {
    "__name__", "__bases__", "__base__", "__mro__", "__call__", "__subclasses__",
    "__instancecheck__", "__subclasscheck__", "__basicsize__", "__itemsize__", "__flags__",
    "__dictoffset__", "__weakrefoffset__", "__eq__", "__ne__", "__lt__", "__le__", "__gt__", "__ge__"
  }

  /** convertClass(name, ptr): `CLASSES[name](ptr)`; `__init__` stores the handle as `_ptr` and nothing else. */
  function ConvertClass(name: string, ptr: PyValue): (r: Result<PyValue>)
    ensures r.Success? <==> name in CLASSES
    ensures r.Success? ==> r.value == PyInstance(name, ptr)
    ensures r.Failure? ==> r.error == KeyError(name)
  {
    if name in CLASSES then Success(PyInstance(name, ptr)) else Failure(KeyError(name))
  }

  /** Each run of twelve ClientInfo names is duplicate-free. */
  lemma ClientInfoAttrRuns()
    ensures FieldsDistinct(CLIENT_INFO_ATTR_LOW)
    ensures FieldsDistinct(CLIENT_INFO_ATTR_MID)
    ensures FieldsDistinct(CLIENT_INFO_ATTR_HIGH)
  {
  }

  lemma ClientInfoAttrFirstApart()
    ensures Disjoint(CLIENT_INFO_ATTR_LOW, CLIENT_INFO_ATTR_MID)
  {
  }

  lemma ClientInfoAttrLastApart()
    ensures Disjoint(CLIENT_INFO_ATTR_LOW, CLIENT_INFO_ATTR_HIGH)
    ensures Disjoint(CLIENT_INFO_ATTR_MID, CLIENT_INFO_ATTR_HIGH)
  {
  }

  /** The 36 ClientInfo attribute names are pairwise distinct. */
  lemma ClientInfoAttrDistinct()
    ensures FieldsDistinct(CLIENT_INFO_ATTR)
  {
    var a, b, c := CLIENT_INFO_ATTR_LOW, CLIENT_INFO_ATTR_MID, CLIENT_INFO_ATTR_HIGH;
    ClientInfoAttrRuns();
    ClientInfoAttrFirstApart();
    ClientInfoAttrLastApart();
    DistinctJoin(a, b);
    DisjointJoin(a, b, c);
    DistinctJoin(a + b, c);
  }

  /** Only the four live classes are registered, each under its own `_cname`, with distinct attribute names. */
  lemma ClassesRegistered()
    ensures CLASSES.Keys == {"Vector", "Quaternion", "DamageList", "ClientInfo"}
    ensures forall name :: name in CLASSES ==> CLASSES[name].cname == name
    ensures forall name :: name in CLASSES ==> FieldsDistinct(CLASSES[name].attr)
  {
    ClientInfoAttrDistinct();
    assert FieldsDistinct(DAMAGE_LIST_ATTR);
  }

  /** Every CppClass name other than the metaclass method `mro` starts with an underscore. */
  lemma ReservedNamesUnderscored()
    ensures "mro" in CPPCLASS_NAMES
    ensures forall n :: n in CPPCLASS_NAMES && n != "mro" ==> |n| > 0 && n[0] == '_'
  {
    forall n | n in CPPCLASS_NAMES && n != "mro"
      ensures |n| > 0 && n[0] == '_'
    {
      if n in CPPCLASS_OWN_NAMES {
        OwnNamesUnderscored(n);
      } else if n in OBJECT_NAMES {
        ObjectNamesUnderscored(n);
      } else {
        TypeNamesUnderscored(n);
      }
    }
  }

  lemma OwnNamesUnderscored(n: string)
    requires n in CPPCLASS_OWN_NAMES
    ensures |n| > 0 && n[0] == '_'
  {
  }

  lemma ObjectNamesUnderscored(n: string)
    requires n in OBJECT_NAMES
    ensures |n| > 0 && n[0] == '_'
  {
  }

  lemma TypeNamesUnderscored(n: string)
    requires n in TYPE_NAMES
    ensures |n| > 0 && n[0] == '_'
  {
  }

  /** No wrapper attribute starts with an underscore. */
  lemma AttrsNotUnderscored(name: string)
    requires name in CLASSES
    ensures forall k :: 0 <= k < |CLASSES[name].attr| ==> |CLASSES[name].attr[k]| > 0 && CLASSES[name].attr[k][0] != '_'
  {
  }

  /** No wrapper attribute collides with a CppClass name, so no `_attr` entry is write-protected by accident. */
  lemma AttrsNotReserved(name: string, key: string)
    requires name in CLASSES && key in CLASSES[name].attr
    ensures key !in CPPCLASS_NAMES
  {
    AttrsNotUnderscored(name);
    MroNotAnAttr(name);
    var k :| 0 <= k < |CLASSES[name].attr| && CLASSES[name].attr[k] == key;
    UnreservedName(key);
  }

  /** A name that neither starts with an underscore nor is `mro` is free for a wrapper attribute. */
  lemma UnreservedName(key: string)
    requires |key| > 0 && key[0] != '_' && key != "mro"
    ensures key !in CPPCLASS_NAMES
  {
    ReservedNamesUnderscored();
  }

  /** No wrapper class lists `mro`, the one reserved name without an underscore. */
  lemma MroNotAnAttr(name: string)
    requires name in CLASSES
    ensures "mro" !in CLASSES[name].attr
  {
    if name == "ClientInfo" {
      assert "mro" !in CLIENT_INFO_ATTR_LOW;
      assert "mro" !in CLIENT_INFO_ATTR_MID;
      assert "mro" !in CLIENT_INFO_ATTR_HIGH;
    }
  }

  /** ClientInfo's `dmgLast` is the fourth name, ordinal 3. */
  lemma LastDamageOrdinal()
    ensures IndexOf(CLIENT_INFO_ATTR, "dmgLast") == Some(3)
  {
    var s := CLIENT_INFO_ATTR;
    assert s[3] == "dmgLast";
    assert s[..3] == CLIENT_INFO_ATTR_LOW[..3];
  }
}
