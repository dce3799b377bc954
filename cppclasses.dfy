/**
 * The script-side wrapper classes: CppClass and its subclasses Vector,
 * Quaternion, DamageList and ClientInfo. An instance holds only a handle to
 * a live native object; reading, writing or deleting an attribute looks the
 * name up in the class's `_attr` tuple and hands its position to the class's
 * native accessor, and the DamageList methods pass a method number to the
 * native method table.
 */
module CppClasses {
  import opened Native
  import opened PyValues
  import opened Registry
  import Accessors
  import Converters

  /** The wrapper class that convertClass picks for each kind of handle. */
  function ClassFor(ref: NativeRef): (name: string)
    ensures name in CLASSES
  {
    match ref
    case VectorRef(_) => "Vector"
    case QuaternionRef(_) => "Quaternion"
    case DamageListRef(_) => "DamageList"
    case ClientInfoRef(_) => "ClientInfo"
  }

  /** An instance built around a handle of its own class's native type. */
  predicate Wrapped(inst: PyValue)
  {
    inst.PyInstance? && inst.ptr.PyCapsule? && ClassFor(inst.ptr.ref) == inst.cls
  }

  /** Every handle the converters build is such an instance. */
  lemma HandlesWrapped(v: LiveVector, q: LiveQuaternion, d: LiveDamageList, c: LiveClientInfo)
    ensures Wrapped(Converters.VectorHandle(v).value)
    ensures Wrapped(Converters.QuaternionHandle(q).value)
    ensures Wrapped(Converters.DamageListHandle(d).value)
    ensures Wrapped(Converters.ClientInfoHandle(c).value)
  {
  }

  /** The three accessor arguments: the handle, the ordinal, and the argument tuple. */
  function AccessorArgs(inst: PyValue, ordinal: nat, funcArgs: PyValue): (args: seq<PyValue>)
    requires Wrapped(inst)
    ensures Accessors.ArgTargets(args) == {inst.ptr.ref.Target()}
    ensures ordinal < TWO_32 ==> Accessors.GetCapsuleData(args) == Success(Accessors.AccessorCall(inst.ptr, ordinal, funcArgs))
  {
    [inst.ptr, PyInt(ordinal), funcArgs]
  }

  /** The definition of the instance's class, as registered under its name. */
  function ClassDef(ref: NativeRef): (cls: CppClassDef)
    ensures cls == CLASSES[ClassFor(ref)]
    ensures cls.cname == ClassFor(ref)
    ensures ref.VectorRef? ==> cls.attr == VECTOR_ATTR && cls.getMethod == VectorGetAttr && cls.setMethod == VectorSetAttr
    ensures ref.QuaternionRef? ==>
              cls.attr == QUATERNION_ATTR && cls.getMethod == QuaternionGetAttr && cls.setMethod == QuaternionSetAttr
    ensures ref.DamageListRef? ==>
              cls.attr == DAMAGE_LIST_ATTR && cls.getMethod == DamageListGetAttr && cls.setMethod == NullFunc
    ensures ref.ClientInfoRef? ==>
              cls.attr == CLIENT_INFO_ATTR && cls.getMethod == ClientInfoGetAttr && cls.setMethod == NoSetter
  {
    CLASSES[ClassFor(ref)]
  }

  /** The accessor-table read at ordinal k of the object behind a handle. */
  function Read(ref: NativeRef, k: int): PyValue
    reads ref.Target()
  {
    match ref
    case VectorRef(v) => Accessors.VectorOrdinal(v.Value(), k)
    case QuaternionRef(q) => Accessors.QuaternionOrdinal(q.Value(), k)
    case DamageListRef(d) => Accessors.DamageListOrdinal(d.Value(), k)
    case ClientInfoRef(c) => Accessors.ClientInfoOrdinal(c, k)
  }

  // ---------------------------------------------------------------------------
  // Reading an attribute

  /** The getter fits the handle in the arguments. */
  predicate GetterFits(g: Getter, args: seq<PyValue>)
  {
    match g
    case VectorGetAttr => Accessors.VectorArgs(args)
    case QuaternionGetAttr => Accessors.QuaternionArgs(args)
    case DamageListGetAttr => Accessors.DamageListArgs(args)
    case ClientInfoGetAttr => Accessors.ClientInfoArgs(args)
  }

  /** Calls a native getter: on arguments that parse it reads the handle's object at the ordinal. */
  function CallGetter(g: Getter, args: seq<PyValue>): (r: Result<PyValue>)
    requires GetterFits(g, args)
    reads Accessors.ArgTargets(args)
    ensures r.Success? <==> Accessors.GetCapsuleData(args).Success?
    ensures r.Success? ==> r.value == Read(args[0].ref, Accessors.GetCapsuleData(args).value.ordinal)
  {
    match g
    case VectorGetAttr => Accessors.VectorGetAttr(args)
    case QuaternionGetAttr => Accessors.QuaternionGetAttr(args)
    case DamageListGetAttr => Accessors.DamageListGetAttr(args)
    case ClientInfoGetAttr => Accessors.ClientInfoGetAttr(args)
  }

  /**
   * CppClass.__getattr__: a name outside `_attr` raises AttributeError; a name
   * in it is read from the live object at the name's position.
   */
  function GetAttr(inst: PyValue, key: string): (r: Result<PyValue>)
    requires Wrapped(inst)
    reads inst.ptr.ref.Target()
    ensures key !in ClassDef(inst.ptr.ref).attr <==> r.Failure?
    ensures r.Failure? ==> r.error == AttributeError(inst.cls, NoAttribute(key))
    ensures r.Success? ==> r.value == Read(inst.ptr.ref, IndexOf(ClassDef(inst.ptr.ref).attr, key).value)
  {
    var cls := ClassDef(inst.ptr.ref);
    match IndexOf(cls.attr, key)
    case None => Failure(AttributeError(cls.cname, NoAttribute(key)))
    case Some(idx) => CallGetter(cls.getMethod, AccessorArgs(inst, idx, PyTuple([PyNone])))
  }

  /** Reading a Vector or Quaternion member by name gives that member's current value. */
  lemma ReadFloatByName(ref: NativeRef, key: string)
    requires ref.VectorRef? || ref.QuaternionRef?
    requires key in ClassDef(ref).attr
    ensures var v := Read(ref, IndexOf(ClassDef(ref).attr, key).value);
            v.PyFloat? &&
            (ref.VectorRef? ==> Accessors.VectorMember(ref.vector.Value(), key) == Some(v.f)) &&
            (ref.QuaternionRef? ==> Accessors.QuaternionMember(ref.quaternion.Value(), key) == Some(v.f))
  {
  }

  /** Reading a DamageList member by name gives that member, its entries as a tuple of snapshots. */
  lemma ReadDamageListByName(d: LiveDamageList, key: string)
    requires key in DAMAGE_LIST_ATTR
    ensures Accessors.DamageListMember(d.Value(), key) == Some(Read(DamageListRef(d), IndexOf(DAMAGE_LIST_ATTR, key).value))
  {
    var k := IndexOf(DAMAGE_LIST_ATTR, key).value;
    assert DAMAGE_LIST_ATTR[k] == key;
    var v := Accessors.DamageListOrdinal(d.Value(), k);
    assert Read(DamageListRef(d), k) == v;
  }

  /** Reading a ClientInfo member by name gives a value of the kind the name's prefix announces. */
  lemma ReadClientInfoByName(c: LiveClientInfo, key: string)
    requires key in CLIENT_INFO_ATTR
    ensures Accessors.KindOf(Read(ClientInfoRef(c), IndexOf(CLIENT_INFO_ATTR, key).value)) == Accessors.PrefixKind(key)
  {
    var k := IndexOf(CLIENT_INFO_ATTR, key).value;
    assert CLIENT_INFO_ATTR[k] == key;
    var v := Accessors.ClientInfoOrdinal(c, k);
    assert Read(ClientInfoRef(c), k) == v;
    assert Accessors.KindOf(v) == Accessors.PrefixKind(CLIENT_INFO_ATTR[k]);
  }

  /** `dmgLast` is read as a new wrapper around the DamageList embedded in the ClientInfo. */
  lemma ReadLastDamage(c: LiveClientInfo)
    ensures IndexOf(CLIENT_INFO_ATTR, "dmgLast") == Some(3)
    ensures Read(ClientInfoRef(c), 3) == Converters.DamageListHandle(c.dmgLast).value
  {
    LastDamageOrdinal();
  }

  // ---------------------------------------------------------------------------
  // Writing and deleting an attribute

  /** Writing the Vector member at a name's position writes that member and no other. */
  lemma VectorWithByName(v: Vector, key: string, f: Float32)
    requires key in VECTOR_ATTR
    ensures Accessors.VectorMember(Accessors.VectorWith(v, IndexOf(VECTOR_ATTR, key).value, f), key) == Some(f)
    ensures forall n :: n != key ==>
              Accessors.VectorMember(Accessors.VectorWith(v, IndexOf(VECTOR_ATTR, key).value, f), n)
              == Accessors.VectorMember(v, n)
  {
  }

  /** Writing the Quaternion member at a name's position writes that member and no other. */
  lemma QuaternionWithByName(q: Quaternion, key: string, f: Float32)
    requires key in QUATERNION_ATTR
    ensures Accessors.QuaternionMember(Accessors.QuaternionWith(q, IndexOf(QUATERNION_ATTR, key).value, f), key) == Some(f)
    ensures forall n :: n != key ==>
              Accessors.QuaternionMember(Accessors.QuaternionWith(q, IndexOf(QUATERNION_ATTR, key).value, f), n)
              == Accessors.QuaternionMember(q, n)
  {
  }

  /** Calls a native setter; its TypeError (an argument it cannot take) is reported as a missing setter. */
  method CallNativeSetter(s: Setter, cname: string, args: seq<PyValue>) returns (r: Result<PyValue>)
    requires s == VectorSetAttr || s == QuaternionSetAttr
    requires s == VectorSetAttr ==> Accessors.VectorArgs(args)
    requires s == QuaternionSetAttr ==> Accessors.QuaternionArgs(args)
    requires Accessors.GetCapsuleData(args).Success?
    modifies Accessors.ArgTargets(args)
    ensures r.Success? <==> Accessors.FloatArgument(args[2]).Success?
    ensures r.Failure? ==> r.error == AttributeError(cname, NoSetMethod) && unchanged(Accessors.ArgTargets(args))
    ensures r.Success? ==> r.value == PyNone
    ensures r.Success? && s == VectorSetAttr ==>
              args[0].ref.vector.Value() ==
              Accessors.VectorWith(old(args[0].ref.vector.Value()), Accessors.GetCapsuleData(args).value.ordinal,
                                   Accessors.FloatArgument(args[2]).value)
    ensures r.Success? && s == QuaternionSetAttr ==>
              args[0].ref.quaternion.Value() ==
              Accessors.QuaternionWith(old(args[0].ref.quaternion.Value()), Accessors.GetCapsuleData(args).value.ordinal,
                                       Accessors.FloatArgument(args[2]).value)
  {
    if s == VectorSetAttr {
      r := Accessors.VectorSetAttr(args);
    } else {
      r := Accessors.QuaternionSetAttr(args);
    }
    if r.Failure? {
      r := Failure(AttributeError(cname, NoSetMethod));
    }
  }

  /**
   * CppClass.__setattr__. CppClass's own names cannot be assigned; a name
   * outside `_attr` raises AttributeError; otherwise the class's setter is
   * called with the name's position. Vector and Quaternion write the member
   * at that position (and refuse a non-float value); DamageList's setter is
   * nullFunc, which accepts and discards the value; ClientInfo has no setter.
   */
  method SetAttr(inst: PyValue, key: string, value: PyValue) returns (r: Result<PyValue>)
    requires Wrapped(inst)
    modifies inst.ptr.ref.Target()
    ensures key in CPPCLASS_NAMES ==> r == Failure(AttributeError(inst.cls, CannotChange(key)))
    ensures key !in CPPCLASS_NAMES && key !in ClassDef(inst.ptr.ref).attr ==>
              r == Failure(AttributeError(inst.cls, NoAttribute(key)))
    ensures r.Failure? || inst.ptr.ref.DamageListRef? ==> unchanged(inst.ptr.ref.Target())
    ensures inst.ptr.ref.DamageListRef? && key in DAMAGE_LIST_ATTR ==> r == Success(PyNone)
    ensures inst.ptr.ref.ClientInfoRef? && key in CLIENT_INFO_ATTR ==> r == Failure(AttributeError(inst.cls, NoSetMethod))
    ensures (inst.ptr.ref.VectorRef? || inst.ptr.ref.QuaternionRef?) && key in ClassDef(inst.ptr.ref).attr ==>
              (r.Success? <==> value.PyFloat?) && (r.Failure? ==> r.error == AttributeError(inst.cls, NoSetMethod))
    ensures inst.ptr.ref.VectorRef? && r.Success? ==>
              inst.ptr.ref.vector.Value() ==
              Accessors.VectorWith(old(inst.ptr.ref.vector.Value()), IndexOf(VECTOR_ATTR, key).value, value.f)
    ensures inst.ptr.ref.QuaternionRef? && r.Success? ==>
              inst.ptr.ref.quaternion.Value() ==
              Accessors.QuaternionWith(old(inst.ptr.ref.quaternion.Value()), IndexOf(QUATERNION_ATTR, key).value, value.f)
  {
    var cls := ClassDef(inst.ptr.ref);
    if key in CPPCLASS_NAMES {
      if key in cls.attr {
        AttrsNotReserved(cls.cname, key);
      }
      return Failure(AttributeError(cls.cname, CannotChange(key)));
    }
    match IndexOf(cls.attr, key) {
      case None =>
        r := Failure(AttributeError(cls.cname, NoAttribute(key)));
      case Some(idx) =>
        var args := AccessorArgs(inst, idx, PyTuple([value]));
        match cls.setMethod {
          case NoSetter =>
            r := Failure(AttributeError(cls.cname, NoSetMethod));   // calling None raises TypeError
          case NullFunc =>
            r := Success(PyNone);
          case VectorSetAttr =>
            r := CallNativeSetter(VectorSetAttr, cls.cname, args);
          case QuaternionSetAttr =>
            r := CallNativeSetter(QuaternionSetAttr, cls.cname, args);
        }
    }
  }

  /**
   * Writing a float through a Vector or Quaternion wrapper and reading the
   * same name back yields the value written; every other name reads as before.
   */
  method SetThenGet(inst: PyValue, key: string, f: Float32) returns (r: Result<PyValue>)
    requires Wrapped(inst) && (inst.ptr.ref.VectorRef? || inst.ptr.ref.QuaternionRef?)
    requires key in ClassDef(inst.ptr.ref).attr
    modifies inst.ptr.ref.Target()
    ensures r == Success(PyFloat(f))
    ensures forall other :: other != key ==> GetAttr(inst, other) == old(GetAttr(inst, other))
  {
    AttrsNotReserved(ClassDef(inst.ptr.ref).cname, key);
    var _ := SetAttr(inst, key, PyFloat(f));
    r := GetAttr(inst, key);
    forall other | other != key
      ensures GetAttr(inst, other) == old(GetAttr(inst, other))
    {
      if other in ClassDef(inst.ptr.ref).attr {
        var attr := ClassDef(inst.ptr.ref).attr;
        assert IndexOf(attr, other).value != IndexOf(attr, key).value;
      }
    }
  }

  /**
   * `v.<key> = f` on a Vector or Quaternion wrapper with the native setter as
   * written: `__setattr__` passes the name's position, and the break-less
   * switch writes that member and every later one.
   */
  method SetFloatAsWritten(inst: PyValue, key: string, f: Float32) returns (r: Result<PyValue>)
    requires Wrapped(inst) && (inst.ptr.ref.VectorRef? || inst.ptr.ref.QuaternionRef?)
    requires key in ClassDef(inst.ptr.ref).attr
    modifies inst.ptr.ref.Target()
    ensures r == Success(PyNone)
    ensures inst.ptr.ref.VectorRef? ==>
              inst.ptr.ref.vector.Value() ==
              Accessors.VectorFallthrough(old(inst.ptr.ref.vector.Value()), IndexOf(VECTOR_ATTR, key).value, f)
    ensures inst.ptr.ref.QuaternionRef? ==>
              inst.ptr.ref.quaternion.Value() ==
              Accessors.QuaternionFallthrough(old(inst.ptr.ref.quaternion.Value()), IndexOf(QUATERNION_ATTR, key).value, f)
  {
    var cls := ClassDef(inst.ptr.ref);
    AttrsNotReserved(cls.cname, key);
    var idx := IndexOf(cls.attr, key).value;
    var args := AccessorArgs(inst, idx, PyTuple([PyFloat(f)]));
    if inst.ptr.ref.VectorRef? {
      r := Accessors.VectorSetAttrAsWritten(args);
    } else {
      r := Accessors.QuaternionSetAttrAsWritten(args);
    }
  }

  /**
   * As written, writing a Vector member by name also writes every member
   * named after it; the members named before it keep their values.
   */
  lemma VectorFallthroughByName(v: Vector, key: string, f: Float32)
    requires key in VECTOR_ATTR
    ensures forall j :: IndexOf(VECTOR_ATTR, key).value <= j < |VECTOR_ATTR| ==>
              Accessors.VectorMember(Accessors.VectorFallthrough(v, IndexOf(VECTOR_ATTR, key).value, f), VECTOR_ATTR[j])
              == Some(f)
    ensures forall j :: 0 <= j < IndexOf(VECTOR_ATTR, key).value ==>
              Accessors.VectorMember(Accessors.VectorFallthrough(v, IndexOf(VECTOR_ATTR, key).value, f), VECTOR_ATTR[j])
              == Accessors.VectorMember(v, VECTOR_ATTR[j])
  {
    var k := IndexOf(VECTOR_ATTR, key).value;
    assert VECTOR_ATTR == ["x", "y", "z"];
    assert k < 3;
  }

  /**
   * As written, writing a Quaternion member by name also writes every member
   * named after it; the members named before it keep their values.
   */
  lemma QuaternionFallthroughByName(q: Quaternion, key: string, f: Float32)
    requires key in QUATERNION_ATTR
    ensures forall j :: IndexOf(QUATERNION_ATTR, key).value <= j < |QUATERNION_ATTR| ==>
              Accessors.QuaternionMember(Accessors.QuaternionFallthrough(q, IndexOf(QUATERNION_ATTR, key).value, f),
                                         QUATERNION_ATTR[j]) == Some(f)
    ensures forall j :: 0 <= j < IndexOf(QUATERNION_ATTR, key).value ==>
              Accessors.QuaternionMember(Accessors.QuaternionFallthrough(q, IndexOf(QUATERNION_ATTR, key).value, f),
                                         QUATERNION_ATTR[j]) == Accessors.QuaternionMember(q, QUATERNION_ATTR[j])
  {
    var k := IndexOf(QUATERNION_ATTR, key).value;
    assert QUATERNION_ATTR == ["w", "x", "y", "z"];
    assert k < 4;
  }

  /** CppClass.__delattr__: no attribute of a wrapper can be deleted. */
  function DelAttr(inst: PyValue, key: string): (r: Result<PyValue>)
    requires Wrapped(inst)
    ensures r.Failure? && r.error.AttributeError? && r.error.reason == CannotDelete
    ensures r.error.cname == inst.cls
  {
    Failure(AttributeError(ClassDef(inst.ptr.ref).cname, CannotDelete))
  }

  // ---------------------------------------------------------------------------
  // DamageList methods

  /** A call of one of the DamageList wrapper's methods, with its arguments. */
  datatype DamageListCall =
    | DmgCauseToString
    | AddDamageEntry(subobj: PyValue, health: PyValue, fate: PyValue)
    | GetCause
    | GetHitPtsLeft(hitSubobj: PyValue)
    | GetInflictorId
    | GetInflictorOwnerPlayer
    | IsDestroyed
    | IsInflictorAPlayer
    | SetCause(cause: PyValue)
    | SetDestroyed(destroyed: PyValue)
    | SetInflictorId(objId: PyValue)
    | SetInflictorOwnerPlayer(clientId: PyValue)

  /** The argument tuple a method passes on: its own arguments, or `(None,)` when it takes none. */
  function CallArgs(c: DamageListCall): (t: PyValue)
    ensures t.PyTuple? && |t.items| == (if c.AddDamageEntry? then 3 else 1)
  {
    match c
    case AddDamageEntry(s, h, f) => PyTuple([s, h, f])
    case GetHitPtsLeft(s) => PyTuple([s])
    case SetCause(x) => PyTuple([x])
    case SetDestroyed(x) => PyTuple([x])
    case SetInflictorId(x) => PyTuple([x])
    case SetInflictorOwnerPlayer(x) => PyTuple([x])
    case _ => PyTuple([PyNone])
  }

  /** The method numbers the wrapper passes as written: 1 for DmgCauseToString up to 12. */
  function MethodNumberAsWritten(c: DamageListCall): (n: nat)
    ensures 1 <= n <= 12
  {
    match c
    case DmgCauseToString => 1
    case AddDamageEntry(_, _, _) => 2
    case GetCause => 3
    case GetHitPtsLeft(_) => 4
    case GetInflictorId => 5
    case GetInflictorOwnerPlayer => 6
    case IsDestroyed => 7
    case IsInflictorAPlayer => 8
    case SetCause(_) => 9
    case SetDestroyed(_) => 10
    case SetInflictorId(_) => 11
    case SetInflictorOwnerPlayer(_) => 12
  }

  /** The numbers of the native table's cases, which count from 0: one less than as written. */
  function MethodNumber(c: DamageListCall): (n: nat)
    ensures n + 1 == MethodNumberAsWritten(c)
  {
    match c
    case DmgCauseToString => 0
    case AddDamageEntry(_, _, _) => 1
    case GetCause => 2
    case GetHitPtsLeft(_) => 3
    case GetInflictorId => 4
    case GetInflictorOwnerPlayer => 5
    case IsDestroyed => 6
    case IsInflictorAPlayer => 7
    case SetCause(_) => 8
    case SetDestroyed(_) => 9
    case SetInflictorId(_) => 10
    case SetInflictorOwnerPlayer(_) => 11
  }

  /** Each query method, numbered from 0, answers what its name says and writes nothing. */
  lemma QueriesAnswerTheirName(d: DamageListValue, host: Accessors.DamageListHost)
    ensures Accessors.DamageListMethod(d, MethodNumber(DmgCauseToString), CallArgs(DmgCauseToString), host)
            == Accessors.MethodOutcome(Success(PyStr(host.causeText(d.cause))), d)
    ensures Accessors.DamageListMethod(d, MethodNumber(GetCause), CallArgs(GetCause), host)
            == Accessors.MethodOutcome(Success(PyInt(d.cause)), d)
    ensures Accessors.DamageListMethod(d, MethodNumber(GetInflictorId), CallArgs(GetInflictorId), host)
            == Accessors.MethodOutcome(Success(PyInt(d.iInflictorID)), d)
    ensures Accessors.DamageListMethod(d, MethodNumber(GetInflictorOwnerPlayer), CallArgs(GetInflictorOwnerPlayer), host)
            == Accessors.MethodOutcome(Success(PyInt(d.iInflictorPlayerID)), d)
    ensures Accessors.DamageListMethod(d, MethodNumber(IsDestroyed), CallArgs(IsDestroyed), host)
            == Accessors.MethodOutcome(Success(PyBool(d.bDestroyed)), d)
    ensures Accessors.DamageListMethod(d, MethodNumber(IsInflictorAPlayer), CallArgs(IsInflictorAPlayer), host)
            == Accessors.MethodOutcome(Success(PyBool(host.inflictorIsPlayer(d))), d)
  {
  }

  /** get_hit_pts_left, numbered from 0, asks the host about the given sub-object. */
  lemma HitPointsQuery(d: DamageListValue, subobj: uint16, host: Accessors.DamageListHost)
    ensures Accessors.DamageListMethod(d, MethodNumber(GetHitPtsLeft(PyInt(subobj))), CallArgs(GetHitPtsLeft(PyInt(subobj))), host)
            == Accessors.MethodOutcome(Success(PyFloat(host.hitPointsLeft(d, subobj))), d)
  {
    assert SingleArg(UShort, PyTuple([PyInt(subobj)])) == Success(CInt(subobj));
  }

  /** The two id setters, numbered from 0, write the member their name says and nothing else. */
  lemma SettersWriteTheirName(d: DamageListValue, n: uint32, host: Accessors.DamageListHost)
    ensures Accessors.DamageListMethod(d, MethodNumber(SetInflictorId(PyInt(n))), CallArgs(SetInflictorId(PyInt(n))), host)
            == Accessors.MethodOutcome(Success(PyNone), d.(iInflictorID := n))
    ensures Accessors.DamageListMethod(d, MethodNumber(SetInflictorOwnerPlayer(PyInt(n))),
                                       CallArgs(SetInflictorOwnerPlayer(PyInt(n))), host)
            == Accessors.MethodOutcome(Success(PyNone), d.(iInflictorPlayerID := n))
  {
    assert Accessors.IdArgument(PyTuple([PyInt(n)])) == Success(n);
  }

  /** As written, get_cause() lands on the hit-points case, which cannot parse `(None,)`. */
  lemma GetCauseFailsAsWritten(d: DamageListValue, host: Accessors.DamageListHost)
    ensures Accessors.DamageListMethodAsWritten(d, MethodNumberAsWritten(GetCause), CallArgs(GetCause), host).result
            == Failure(TypeError)
  {
  }

  /** As written, get_inflictor_id() reports the owner player instead. */
  lemma GetInflictorIdAsWritten(d: DamageListValue, host: Accessors.DamageListHost)
    ensures Accessors.DamageListMethodAsWritten(d, MethodNumberAsWritten(GetInflictorId), CallArgs(GetInflictorId), host).result
            == Success(PyInt(d.iInflictorPlayerID))
  {
  }

  /** As written, set_destroyed(True) lands on set_inflictor_id and makes the inflictor object 1. */
  lemma SetDestroyedAsWritten(d: DamageListValue, host: Accessors.DamageListHost)
    ensures Accessors.DamageListMethodAsWritten(d, MethodNumberAsWritten(SetDestroyed(PyBool(true))),
                                                CallArgs(SetDestroyed(PyBool(true))), host)
            == Accessors.MethodOutcome(Success(PyNone), d.(iInflictorID := 1))
  {
    assert Accessors.IdArgument(PyTuple([PyBool(true)])) == Success(1);
  }

  /** A DamageList method call as written, on the live object. */
  method CallDamageListMethodAsWritten(inst: PyValue, c: DamageListCall, host: Accessors.DamageListHost)
    returns (r: Result<PyValue>)
    requires Wrapped(inst) && inst.ptr.ref.DamageListRef?
    modifies inst.ptr.ref.Target()
    ensures Accessors.MethodOutcome(r, inst.ptr.ref.damageList.Value()) ==
            Accessors.DamageListMethodAsWritten(old(inst.ptr.ref.damageList.Value()), MethodNumberAsWritten(c),
                                                CallArgs(c), host)
  {
    r := Accessors.DamageListFunctionsAsWritten(AccessorArgs(inst, MethodNumberAsWritten(c), CallArgs(c)), host);
  }

  /** A DamageList method call with the numbers the native table uses, on the live object. */
  method CallDamageListMethod(inst: PyValue, c: DamageListCall, host: Accessors.DamageListHost)
    returns (r: Result<PyValue>)
    requires Wrapped(inst) && inst.ptr.ref.DamageListRef?
    modifies inst.ptr.ref.Target()
    ensures Accessors.MethodOutcome(r, inst.ptr.ref.damageList.Value()) ==
            Accessors.DamageListMethod(old(inst.ptr.ref.damageList.Value()), MethodNumber(c), CallArgs(c), host)
  {
    r := Accessors.DamageListFunctions(AccessorArgs(inst, MethodNumber(c), CallArgs(c)), host);
  }

  /**
   * Every read of `dmgLast` builds a new wrapper around the same native
   * object, so a write through one wrapper is seen through the next.
   */
  method InflictorThroughLastDamage(client: PyValue, n: uint32, host: Accessors.DamageListHost)
    returns (r: Result<PyValue>)
    requires Wrapped(client) && client.ptr.ref.ClientInfoRef?
    modifies client.ptr.ref.clientInfo.dmgLast
    ensures r == Success(PyInt(n))
  {
    ReadLastDamage(client.ptr.ref.clientInfo);
    var first := GetAttr(client, "dmgLast").value;
    var _ := CallDamageListMethod(first, SetInflictorId(PyInt(n)), host);
    SettersWriteTheirName(old(client.ptr.ref.clientInfo.dmgLast.Value()), n, host);
    var second := GetAttr(client, "dmgLast").value;
    r := GetAttr(second, "iInflictorID");
  }
}
