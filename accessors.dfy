/**
 * The native accessor tables behind the wrapper classes: each entry point
 * receives (handle, ordinal, arguments), where the ordinal is the position of
 * an attribute name in the class's `_attr` tuple (or a method number), and
 * reads or writes one member of the live object the handle points to.
 *
 * Getters are functions that read the object; setters and the DamageList
 * method table are methods that write it in place, so a write through one
 * handle is seen through every handle to the same object.
 */
module Accessors {
  import opened Native
  import opened PyValues
  import opened Registry
  import opened Converters

  /** The three arguments every accessor receives. */
  datatype AccessorCall = AccessorCall(handle: PyValue, ordinal: uint32, funcArgs: PyValue)

  /**
   * GET_CAPSULE_DATA: the argument tuple must parse as "OIO"; otherwise the
   * accessor returns NULL before touching the object.
   */
  function GetCapsuleData(args: seq<PyValue>): (r: Result<AccessorCall>)
    ensures r.Success? <==> |args| == 3 && (args[1].PyInt? || args[1].PyBool?)
    ensures r.Success? ==> r.value == AccessorCall(args[0], IntOf(args[1]) % TWO_32, args[2])
  {
    match ParseTuple([AnyObject, UInt, AnyObject], args)
    case Failure(e) => Failure(e)
    case Success(cs) => Success(AccessorCall(cs[0].obj, cs[1].n, cs[2].obj))
  }

  /** The live object behind the handle argument, when there is one. */
  function ArgTargets(args: seq<PyValue>): set<object>
  {
    if |args| > 0 && args[0].PyCapsule? then {args[0].ref.Target()} else {}
  }

  // The native side trusts the handle's type: an accessor handed a capsule of
  // another type reads unrelated memory. Callers therefore promise, for
  // arguments that parse, a handle of the accessor's own type.
  predicate VectorArgs(args: seq<PyValue>)
  {
    GetCapsuleData(args).Success? ==> args[0].PyCapsule? && args[0].ref.VectorRef?
  }

  predicate QuaternionArgs(args: seq<PyValue>)
  {
    GetCapsuleData(args).Success? ==> args[0].PyCapsule? && args[0].ref.QuaternionRef?
  }

  predicate DamageListArgs(args: seq<PyValue>)
  {
    GetCapsuleData(args).Success? ==> args[0].PyCapsule? && args[0].ref.DamageListRef?
  }

  predicate ClientInfoArgs(args: seq<PyValue>)
  {
    GetCapsuleData(args).Success? ==> args[0].PyCapsule? && args[0].ref.ClientInfoRef?
  }

  // ---------------------------------------------------------------------------
  // Vector

  /** A Vector member by its C++ name: the reference the ordinal table is checked against. */
  function VectorMember(v: Vector, name: string): Option<Float32>
  {
    if name == "x" then Some(v.x) else if name == "y" then Some(v.y) else if name == "z" then Some(v.z) else None
  }

  /** The getter's switch: ordinal k reads the member named `_attr[k]`; any other ordinal gives None. */
  function VectorOrdinal(v: Vector, k: int): (r: PyValue)
    ensures 0 <= k < |VECTOR_ATTR| ==> r.PyFloat? && VectorMember(v, VECTOR_ATTR[k]) == Some(r.f)
    ensures !(0 <= k < |VECTOR_ATTR|) ==> r == PyNone
  {
    match k
    case 0 => PyFloat(v.x)
    case 1 => PyFloat(v.y)
    case 2 => PyFloat(v.z)
    case _ => PyNone
  }

  /** emb_Vector_GetAttr: NULL when the arguments do not parse, else the ordinal's read of the live object. */
  function VectorGetAttr(args: seq<PyValue>): (r: Result<PyValue>)
    requires VectorArgs(args)
    reads ArgTargets(args)
    ensures r.Failure? <==> GetCapsuleData(args).Failure?
    ensures r.Success? ==> r.value == VectorOrdinal(args[0].ref.vector.Value(), GetCapsuleData(args).value.ordinal)
  {
    match GetCapsuleData(args)
    case Failure(e) => Failure(e)
    case Success(call) => Success(VectorOrdinal(call.handle.ref.vector.Value(), call.ordinal))
  }

  /** The intended write: the member at ordinal k becomes f and no other member changes. */
  function VectorWith(v: Vector, k: int, f: Float32): (r: Vector)
    ensures 0 <= k < |VECTOR_ATTR| ==> VectorOrdinal(r, k) == PyFloat(f)
    ensures forall j :: j != k ==> VectorOrdinal(r, j) == VectorOrdinal(v, j)
    ensures !(0 <= k < |VECTOR_ATTR|) ==> r == v
  {
    match k
    case 0 => v.(x := f)
    case 1 => v.(y := f)
    case 2 => v.(z := f)
    case _ => v
  }

  /** The switch as written has no `break`: the write at ordinal k lands on member k and every later one. */
  function VectorFallthrough(v: Vector, k: int, f: Float32): (r: Vector)
    ensures forall j :: 0 <= j < |VECTOR_ATTR| ==>
              VectorOrdinal(r, j) == if 0 <= k <= j then PyFloat(f) else VectorOrdinal(v, j)
    ensures !(0 <= k < |VECTOR_ATTR|) ==> r == v
  {
    Vector(if k == 0 then f else v.x, if 0 <= k <= 1 then f else v.y, if 0 <= k <= 2 then f else v.z)
  }

  /** Setting x to 1.0 on the zero vector as written yields (1, 1, 1), not (1, 0, 0). */
  lemma VectorFallthroughClobbers()
    ensures VectorFallthrough(Vector(Float32(0), Float32(0), Float32(0)), 0, Float32(0x3F80_0000))
            == Vector(Float32(0x3F80_0000), Float32(0x3F80_0000), Float32(0x3F80_0000))
    ensures VectorFallthrough(Vector(Float32(0), Float32(0), Float32(0)), 0, Float32(0x3F80_0000))
            != VectorWith(Vector(Float32(0), Float32(0), Float32(0)), 0, Float32(0x3F80_0000))
  {
  }

  /** Only the last member is written correctly as written. */
  lemma VectorFallthroughAgreesOnLast(v: Vector, f: Float32)
    ensures VectorFallthrough(v, 2, f) == VectorWith(v, 2, f)
  {
  }

  /** The new value of a setter: the single argument, which must be a float. */
  function FloatArgument(funcArgs: PyValue): (r: Result<Float32>)
    ensures r.Success? <==> funcArgs.PyTuple? && |funcArgs.items| == 1 && funcArgs.items[0].PyFloat?
    ensures r.Success? ==> r.value == funcArgs.items[0].f
  {
    match SingleArg(Float, funcArgs)
    case Failure(e) => Failure(e)
    case Success(c) => Success(c.f)
  }

  /** emb_Vector_SetAttr as written, falling through from the selected case. */
  method VectorSetAttrAsWritten(args: seq<PyValue>) returns (r: Result<PyValue>)
    requires VectorArgs(args)
    modifies ArgTargets(args)
    ensures r.Success? <==> GetCapsuleData(args).Success? && FloatArgument(args[2]).Success?
    ensures r.Failure? ==> unchanged(ArgTargets(args))
    ensures r.Success? ==> r.value == PyNone
    ensures r.Success? ==> (args[0].ref.vector.Value() ==
              VectorFallthrough(old(args[0].ref.vector.Value()), GetCapsuleData(args).value.ordinal,
                                FloatArgument(args[2]).value))
  {
    var call :- GetCapsuleData(args);
    var v := call.handle.ref.vector;
    var nv :- FloatArgument(call.funcArgs);
    var k := call.ordinal;
    if k == 0 {
      v.x := nv;
    }
    if k == 0 || k == 1 {
      v.y := nv;
    }
    if k == 0 || k == 1 || k == 2 {
      v.z := nv;
    }
    r := Success(PyNone);
  }

  /** emb_Vector_SetAttr with one `break` per case: only the selected member is written. */
  method VectorSetAttr(args: seq<PyValue>) returns (r: Result<PyValue>)
    requires VectorArgs(args)
    modifies ArgTargets(args)
    ensures r.Success? <==> GetCapsuleData(args).Success? && FloatArgument(args[2]).Success?
    ensures r.Failure? ==> unchanged(ArgTargets(args))
    ensures r.Success? ==> r.value == PyNone
    ensures r.Success? ==> (args[0].ref.vector.Value() ==
              VectorWith(old(args[0].ref.vector.Value()), GetCapsuleData(args).value.ordinal,
                         FloatArgument(args[2]).value))
  {
    var call :- GetCapsuleData(args);
    var v := call.handle.ref.vector;
    var nv :- FloatArgument(call.funcArgs);
    match call.ordinal {
      case 0 => v.x := nv;
      case 1 => v.y := nv;
      case 2 => v.z := nv;
      case _ =>
    }
    r := Success(PyNone);
  }

  // ---------------------------------------------------------------------------
  // Quaternion

  function QuaternionMember(q: Quaternion, name: string): Option<Float32>
  {
    if name == "w" then Some(q.w) else if name == "x" then Some(q.x)
    else if name == "y" then Some(q.y) else if name == "z" then Some(q.z) else None
  }

  function QuaternionOrdinal(q: Quaternion, k: int): (r: PyValue)
    ensures 0 <= k < |QUATERNION_ATTR| ==> r.PyFloat? && QuaternionMember(q, QUATERNION_ATTR[k]) == Some(r.f)
    ensures !(0 <= k < |QUATERNION_ATTR|) ==> r == PyNone
  {
    match k
    case 0 => PyFloat(q.w)
    case 1 => PyFloat(q.x)
    case 2 => PyFloat(q.y)
    case 3 => PyFloat(q.z)
    case _ => PyNone
  }

  function QuaternionGetAttr(args: seq<PyValue>): (r: Result<PyValue>)
    requires QuaternionArgs(args)
    reads ArgTargets(args)
    ensures r.Failure? <==> GetCapsuleData(args).Failure?
    ensures r.Success? ==>
              r.value == QuaternionOrdinal(args[0].ref.quaternion.Value(), GetCapsuleData(args).value.ordinal)
  {
    match GetCapsuleData(args)
    case Failure(e) => Failure(e)
    case Success(call) => Success(QuaternionOrdinal(call.handle.ref.quaternion.Value(), call.ordinal))
  }

  function QuaternionWith(q: Quaternion, k: int, f: Float32): (r: Quaternion)
    ensures 0 <= k < |QUATERNION_ATTR| ==> QuaternionOrdinal(r, k) == PyFloat(f)
    ensures forall j :: j != k ==> QuaternionOrdinal(r, j) == QuaternionOrdinal(q, j)
    ensures !(0 <= k < |QUATERNION_ATTR|) ==> r == q
  {
    match k
    case 0 => q.(w := f)
    case 1 => q.(x := f)
    case 2 => q.(y := f)
    case 3 => q.(z := f)
    case _ => q
  }

  function QuaternionFallthrough(q: Quaternion, k: int, f: Float32): (r: Quaternion)
    ensures forall j :: 0 <= j < |QUATERNION_ATTR| ==>
              QuaternionOrdinal(r, j) == if 0 <= k <= j then PyFloat(f) else QuaternionOrdinal(q, j)
    ensures !(0 <= k < |QUATERNION_ATTR|) ==> r == q
  {
    Quaternion(if k == 0 then f else q.w, if 0 <= k <= 1 then f else q.x,
               if 0 <= k <= 2 then f else q.y, if 0 <= k <= 3 then f else q.z)
  }

  /** Setting x (ordinal 1) on the zero quaternion as written also overwrites y and z. */
  lemma QuaternionFallthroughClobbers()
    ensures QuaternionFallthrough(Quaternion(Float32(0), Float32(0), Float32(0), Float32(0)), 1, Float32(0x3F80_0000))
            == Quaternion(Float32(0), Float32(0x3F80_0000), Float32(0x3F80_0000), Float32(0x3F80_0000))
    ensures QuaternionFallthrough(Quaternion(Float32(0), Float32(0), Float32(0), Float32(0)), 1, Float32(0x3F80_0000))
            != QuaternionWith(Quaternion(Float32(0), Float32(0), Float32(0), Float32(0)), 1, Float32(0x3F80_0000))
  {
  }

  method QuaternionSetAttrAsWritten(args: seq<PyValue>) returns (r: Result<PyValue>)
    requires QuaternionArgs(args)
    modifies ArgTargets(args)
    ensures r.Success? <==> GetCapsuleData(args).Success? && FloatArgument(args[2]).Success?
    ensures r.Failure? ==> unchanged(ArgTargets(args))
    ensures r.Success? ==> r.value == PyNone
    ensures r.Success? ==> (args[0].ref.quaternion.Value() ==
              QuaternionFallthrough(old(args[0].ref.quaternion.Value()), GetCapsuleData(args).value.ordinal,
                                    FloatArgument(args[2]).value))
  {
    var call :- GetCapsuleData(args);
    var q := call.handle.ref.quaternion;
    var nv :- FloatArgument(call.funcArgs);
    var k := call.ordinal;
    if k == 0 {
      q.w := nv;
    }
    if k <= 1 {
      q.x := nv;
    }
    if k <= 2 {
      q.y := nv;
    }
    if k <= 3 {
      q.z := nv;
    }
    r := Success(PyNone);
  }

  method QuaternionSetAttr(args: seq<PyValue>) returns (r: Result<PyValue>)
    requires QuaternionArgs(args)
    modifies ArgTargets(args)
    ensures r.Success? <==> GetCapsuleData(args).Success? && FloatArgument(args[2]).Success?
    ensures r.Failure? ==> unchanged(ArgTargets(args))
    ensures r.Success? ==> r.value == PyNone
    ensures r.Success? ==> (args[0].ref.quaternion.Value() ==
              QuaternionWith(old(args[0].ref.quaternion.Value()), GetCapsuleData(args).value.ordinal,
                             FloatArgument(args[2]).value))
  {
    var call :- GetCapsuleData(args);
    var q := call.handle.ref.quaternion;
    var nv :- FloatArgument(call.funcArgs);
    match call.ordinal {
      case 0 => q.w := nv;
      case 1 => q.x := nv;
      case 2 => q.y := nv;
      case 3 => q.z := nv;
      case _ =>
    }
    r := Success(PyNone);
  }

  // ---------------------------------------------------------------------------
  // DamageList

  /** A DamageList member by its C++ name, as a script sees it. */
  function DamageListMember(d: DamageListValue, name: string): Option<PyValue>
  {
    if name == "iDunno1" then Some(PyInt(d.iDunno1))
    else if name == "damageentries" then Some(DamageEntriesTuple(d.damageEntries))
    else if name == "bDestroyed" then Some(PyBool(d.bDestroyed))
    else if name == "iDunno2" then Some(PyInt(d.iDunno2))
    else if name == "iInflictorID" then Some(PyInt(d.iInflictorID))
    else if name == "iInflictorPlayerID" then Some(PyInt(d.iInflictorPlayerID))
    else None
  }

  /**
   * emb_DamageList_GetAttr's switch: ordinal k reads the member named
   * `_attr[k]` (the entry list as a tuple of snapshots, the flag as True or
   * False); any other ordinal gives None.
   */
  function DamageListOrdinal(d: DamageListValue, k: int): (r: PyValue)
    ensures 0 <= k < |DAMAGE_LIST_ATTR| ==> DamageListMember(d, DAMAGE_LIST_ATTR[k]) == Some(r)
    ensures !(0 <= k < |DAMAGE_LIST_ATTR|) ==> r == PyNone
  {
    match k
    case 0 => PyInt(d.iDunno1)
    case 1 => DamageEntriesTuple(d.damageEntries)
    case 2 => PyBool(d.bDestroyed)
    case 3 => PyInt(d.iDunno2)
    case 4 => PyInt(d.iInflictorID)
    case 5 => PyInt(d.iInflictorPlayerID)
    case _ => PyNone
  }

  function DamageListGetAttr(args: seq<PyValue>): (r: Result<PyValue>)
    requires DamageListArgs(args)
    reads ArgTargets(args)
    ensures r.Failure? <==> GetCapsuleData(args).Failure?
    ensures r.Success? ==>
              r.value == DamageListOrdinal(args[0].ref.damageList.Value(), GetCapsuleData(args).value.ordinal)
  {
    match GetCapsuleData(args)
    case Failure(e) => Failure(e)
    case Success(call) => Success(DamageListOrdinal(call.handle.ref.damageList.Value(), call.ordinal))
  }

  /** The host's DamageList methods that compute rather than read a member. */
  datatype DamageListHost = DamageListHost(
    causeText: uint32 -> string,                        // DmgCauseToString
    hitPointsLeft: (DamageListValue, uint16) -> Float32,  // get_hit_pts_left
    inflictorIsPlayer: DamageListValue -> bool)         // is_inflictor_a_player

  /** What one call of the method table returns, and the object afterwards. */
  datatype MethodOutcome = MethodOutcome(result: Result<PyValue>, after: DamageListValue)

  /** The cases that only read: each answers without writing. */
  function DamageListQuery(d: DamageListValue, k: int, funcArgs: PyValue, host: DamageListHost): (o: MethodOutcome)
    requires k != 10 && k != 11
    ensures o.after == d
    ensures o.result.Failure? ==> k == 3
    ensures k == 1 || k == 8 || k == 9 || k < 0 || k >= 12 ==> o.result == Success(PyNone)
  {
    match k
    case 0 => MethodOutcome(Success(PyStr(host.causeText(d.cause))), d)
    case 2 => MethodOutcome(Success(PyInt(d.cause)), d)
    case 3 =>
      (match SingleArg(UShort, funcArgs)
       case Failure(e) => MethodOutcome(Failure(e), d)
       case Success(c) => MethodOutcome(Success(PyFloat(host.hitPointsLeft(d, c.n))), d))
    case 4 => MethodOutcome(Success(PyInt(d.iInflictorID)), d)
    case 5 => MethodOutcome(Success(PyInt(d.iInflictorPlayerID)), d)
    case 6 => MethodOutcome(Success(PyBool(d.bDestroyed)), d)
    case 7 => MethodOutcome(Success(PyBool(host.inflictorIsPlayer(d))), d)
    case _ => MethodOutcome(Success(PyNone), d)   // 1, 8, 9 and unknown ordinals: not implemented
  }

  /** The id argument of the two setters: one unsigned int. */
  function IdArgument(funcArgs: PyValue): (r: Result<uint32>)
    ensures r.Success? <==>
              funcArgs.PyTuple? && |funcArgs.items| == 1 && (funcArgs.items[0].PyInt? || funcArgs.items[0].PyBool?)
    ensures r.Success? ==> r.value == IntOf(funcArgs.items[0]) % TWO_32
  {
    match SingleArg(UInt, funcArgs)
    case Failure(e) => Failure(e)
    case Success(c) => Success(c.n)
  }

  /** emb_DamageList_Functions as written: case 11 calls set_inflictor_id, like case 10. */
  function DamageListMethodAsWritten(d: DamageListValue, k: int, funcArgs: PyValue, host: DamageListHost): (o: MethodOutcome)
    ensures k == 10 || k == 11 ==> (o.result.Success? <==> IdArgument(funcArgs).Success?)
    ensures (k == 10 || k == 11) && o.result.Success? ==>
              o.result.value == PyNone && o.after == d.(iInflictorID := IdArgument(funcArgs).value)
    ensures o.result.Failure? ==> o.after == d
  {
    if k == 10 || k == 11 then
      match IdArgument(funcArgs)
      case Failure(e) => MethodOutcome(Failure(e), d)
      case Success(n) => MethodOutcome(Success(PyNone), d.(iInflictorID := n))
    else DamageListQuery(d, k, funcArgs, host)
  }

  /** The method table with case 11 calling set_inflictor_owner_player. */
  function DamageListMethod(d: DamageListValue, k: int, funcArgs: PyValue, host: DamageListHost): (o: MethodOutcome)
    ensures k != 10 && k != 11 ==> o.after == d
    ensures k == 10 || k == 11 ==> (o.result.Success? <==> IdArgument(funcArgs).Success?)
    ensures o.result.Failure? ==> o.after == d && (k == 3 || k == 10 || k == 11)
    ensures k == 10 && o.result.Success? ==> o.after == d.(iInflictorID := IdArgument(funcArgs).value)
    ensures k == 11 && o.result.Success? ==> o.after == d.(iInflictorPlayerID := IdArgument(funcArgs).value)
  {
    if k == 11 then
      match IdArgument(funcArgs)
      case Failure(e) => MethodOutcome(Failure(e), d)
      case Success(n) => MethodOutcome(Success(PyNone), d.(iInflictorPlayerID := n))
    else DamageListMethodAsWritten(d, k, funcArgs, host)
  }

  /** Each setter's value is what its getter then reports. */
  lemma InflictorRoundTrip(d: DamageListValue, n: uint32, host: DamageListHost)
    ensures DamageListMethod(DamageListMethod(d, 10, PyTuple([PyInt(n)]), host).after, 4, PyTuple([PyNone]), host).result
            == Success(PyInt(n))
    ensures DamageListMethod(DamageListMethod(d, 11, PyTuple([PyInt(n)]), host).after, 5, PyTuple([PyNone]), host).result
            == Success(PyInt(n))
  {
    assert IdArgument(PyTuple([PyInt(n)])) == Success(n);
  }

  /** As written, setting the owner player to 7 leaves get_inflictor_owner_player at 0 and the inflictor id at 7. */
  lemma InflictorOwnerLostAsWritten(host: DamageListHost)
    ensures var d := DamageListValue(0, [], false, 0, 0, 0, 0);
            var after := DamageListMethodAsWritten(d, 11, PyTuple([PyInt(7)]), host).after;
            DamageListMethodAsWritten(after, 5, PyTuple([PyNone]), host).result == Success(PyInt(0))
            && after.iInflictorID == 7
  {
    assert IdArgument(PyTuple([PyInt(7)])) == Success(7);
  }

  /** emb_DamageList_Functions as written, on the live object. */
  method DamageListFunctionsAsWritten(args: seq<PyValue>, host: DamageListHost) returns (r: Result<PyValue>)
    requires DamageListArgs(args)
    modifies ArgTargets(args)
    ensures GetCapsuleData(args).Failure? ==> r.Failure? && unchanged(ArgTargets(args))
    ensures GetCapsuleData(args).Success? ==>
              MethodOutcome(r, args[0].ref.damageList.Value()) ==
              DamageListMethodAsWritten(old(args[0].ref.damageList.Value()), GetCapsuleData(args).value.ordinal,
                                        args[2], host)
  {
    var call :- GetCapsuleData(args);
    var d := call.handle.ref.damageList;
    if call.ordinal == 10 || call.ordinal == 11 {
      var id :- IdArgument(call.funcArgs);
      d.iInflictorID := id;
      r := Success(PyNone);
    } else {
      r := DamageListQuery(d.Value(), call.ordinal, call.funcArgs, host).result;
    }
  }

  /** emb_DamageList_Functions with case 11 writing the owner player, on the live object. */
  method DamageListFunctions(args: seq<PyValue>, host: DamageListHost) returns (r: Result<PyValue>)
    requires DamageListArgs(args)
    modifies ArgTargets(args)
    ensures GetCapsuleData(args).Failure? ==> r.Failure? && unchanged(ArgTargets(args))
    ensures GetCapsuleData(args).Success? ==>
              MethodOutcome(r, args[0].ref.damageList.Value()) ==
              DamageListMethod(old(args[0].ref.damageList.Value()), GetCapsuleData(args).value.ordinal,
                               args[2], host)
  {
    var call :- GetCapsuleData(args);
    var d := call.handle.ref.damageList;
    if call.ordinal == 10 {
      var id :- IdArgument(call.funcArgs);
      d.iInflictorID := id;
      r := Success(PyNone);
    } else if call.ordinal == 11 {
      var id :- IdArgument(call.funcArgs);
      d.iInflictorPlayerID := id;
      r := Success(PyNone);
    } else {
      r := DamageListQuery(d.Value(), call.ordinal, call.funcArgs, host).result;
    }
  }

  // ---------------------------------------------------------------------------
  // ClientInfo

  /** The kinds of value a getter can hand back. */
  datatype Kind = BoolKind | IntKind | StrKind | HandleKind | NoKind

  /**
   * The kind a member name announces by its prefix: `b` a flag, `i` and `tm`
   * an integer, `wsc` a string, `dmg` a DamageList; any other name announces
   * nothing.
   */
  function PrefixKind(name: string): Kind
  {
    if |name| >= 3 && name[0] == 'w' && name[1] == 's' && name[2] == 'c' then StrKind
    else if |name| >= 3 && name[0] == 'd' && name[1] == 'm' && name[2] == 'g' then HandleKind
    else if |name| >= 2 && name[0] == 't' && name[1] == 'm' then IntKind
    else if |name| >= 1 && name[0] == 'b' then BoolKind
    else if |name| >= 1 && name[0] == 'i' then IntKind
    else NoKind
  }

  function KindOf(v: PyValue): Kind
  {
    match v
    case PyBool(_) => BoolKind
    case PyInt(_) => IntKind
    case PyStr(_) => StrKind
    case PyInstance("DamageList", _) => HandleKind
    case _ => NoKind
  }

  function ClientInfoLow(c: LiveClientInfo, k: int): (r: PyValue)
    requires 0 <= k < 12
    reads c
    ensures KindOf(r) == PrefixKind(CLIENT_INFO_ATTR_LOW[k])
  {
    match k
    case 0 => PyInt(c.iShip)
    case 1 => PyInt(c.iShipOld)
    case 2 => PyInt(c.tmSpawnTime)
    case 3 => DamageListHandle(c.dmgLast).value
    case 4 => PyNone                               // lstMoneyFix: not implemented
    case 5 => PyInt(c.iTradePartner)
    case 6 => PyBool(c.bCruiseActivated)
    case 7 => PyBool(c.bThrusterActivated)
    case 8 => PyBool(c.bEngineKilled)
    case 9 => PyBool(c.bTradelane)
    case 10 => PyInt(c.iBaseEnterTime)
    case _ => PyInt(c.iCharMenuEnterTime)
  }

  function ClientInfoMid(c: LiveClientInfo, k: int): (r: PyValue)
    requires 0 <= k < 12
    reads c
    ensures KindOf(r) == PrefixKind(CLIENT_INFO_ATTR_MID[k])
  {
    match k
    case 0 => PyInt(c.tmKickTime)
    case 1 => PyInt(c.iLastExitedBaseID)
    case 2 => PyBool(c.bDisconnected)
    case 3 => PyBool(c.bCharSelected)
    case 4 => PyInt(c.tmF1Time)
    case 5 => PyInt(c.tmF1TimeDisconnect)
    case _ => PyNone                               // lstIgnore, the death and chat message settings: not implemented
  }

  function ClientInfoHigh(c: LiveClientInfo, k: int): (r: PyValue)
    requires 0 <= k < 12
    reads c
    ensures KindOf(r) == PrefixKind(CLIENT_INFO_ATTR_HIGH[k])
  {
    match k
    case 0 => PyBool(c.bAutoBuyMissiles)
    case 1 => PyBool(c.bAutoBuyMines)
    case 2 => PyBool(c.bAutoBuyTorps)
    case 3 => PyBool(c.bAutoBuyCD)
    case 4 => PyBool(c.bAutoBuyCM)
    case 5 => PyBool(c.bAutoBuyReload)
    case 6 => PyInt(c.iKillsInARow)
    case 7 => PyInt(c.iConnects)
    case 8 => StringToPython(c.wscHostname).value
    case 9 => PyBool(c.bSpawnProtected)
    case 10 => PyBool(c.bUseServersideHitDetection)
    case _ => PyNone                               // unused_data: not implemented
  }

  /**
   * emb_ClientInfo_GetAttr's switch: each ordinal's value has the kind its
   * `_attr` name announces, flags are True or False, and exactly the members
   * the table does not implement, and ordinals past the table, give None.
   */
  function ClientInfoOrdinal(c: LiveClientInfo, k: int): (r: PyValue)
    reads c
    ensures 0 <= k < |CLIENT_INFO_ATTR| ==> KindOf(r) == PrefixKind(CLIENT_INFO_ATTR[k])
    ensures 0 <= k < |CLIENT_INFO_ATTR| ==> (r == PyNone <==> k == 4 || 18 <= k <= 23 || k == 35)
    ensures !(0 <= k < |CLIENT_INFO_ATTR|) ==> r == PyNone
    ensures k == 3 ==> r == PyInstance("DamageList", PyCapsule(DamageListRef(c.dmgLast)))
  {
    if 0 <= k < 12 then ClientInfoLow(c, k)
    else if 12 <= k < 24 then ClientInfoMid(c, k - 12)
    else if 24 <= k < 36 then ClientInfoHigh(c, k - 24)
    else PyNone
  }

  function ClientInfoGetAttr(args: seq<PyValue>): (r: Result<PyValue>)
    requires ClientInfoArgs(args)
    reads ArgTargets(args)
    ensures r.Failure? <==> GetCapsuleData(args).Failure?
    ensures r.Success? ==> r.value == ClientInfoOrdinal(args[0].ref.clientInfo, GetCapsuleData(args).value.ordinal)
  {
    match GetCapsuleData(args)
    case Failure(e) => Failure(e)
    case Success(call) => Success(ClientInfoOrdinal(call.handle.ref.clientInfo, call.ordinal))
  }
}
