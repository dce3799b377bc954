/**
 * The Python 2 side of the bridge, as far as the bridge sees it: the values
 * that cross the boundary, the exceptions it can raise, and the few C-API
 * conversions whose behaviour decides what the bridge does (tuple argument
 * parsing, tuple building, int extraction).
 */
module PyValues {
  import opened Native

  datatype Option<T> = None | Some(value: T)

  /**
   * A Python object. Python 2 has a machine `int` and an unbounded `long`;
   * both are PyInt here. A record is an instance of a registered namedtuple
   * shape; an instance is an object of one of the CppClass wrapper classes,
   * holding the handle it was built around.
   */
  datatype PyValue =
    | PyNone
    | PyBool(b: bool)
    | PyInt(i: int)
    | PyFloat(f: Float32)
    | PyStr(s: string)
    | PyTuple(items: seq<PyValue>)
    | PyRecord(shape: string, values: seq<PyValue>)
    | PyCapsule(ref: NativeRef)
    | PyInstance(cls: string, ptr: PyValue)

  /** Why an attribute access on a CppClass wrapper was refused. */
  datatype AttrReason =
    | NoAttribute(key: string)   // the name is not in `_attr`
    | CannotChange(key: string)  // the name is one of CppClass's own attributes
    | NoSetMethod                // the class has no usable setter
    | CannotDelete               // attributes are never deleted

  datatype PyException =
    | TypeError
    | OverflowError
    | KeyError(key: string)
    | AttributeError(cname: string, reason: AttrReason)
    | HookError(code: HkError)   // FLHook.Error raised for a failed host call
    | SystemError                // a C-API call was handed an argument of the wrong type

  datatype Result<T> = Success(value: T) | Failure(error: PyException)
  {
    predicate IsFailure() { Failure? }

    function PropagateFailure<U>(): Result<U>
      requires Failure?
    {
      Failure(error)
    }

    function Extract(): T
      requires Success?
    {
      value
    }
  }

  const TWO_16: int := 0x1_0000
  const TWO_32: int := 0x1_0000_0000
  const INT32_MIN: int := -0x8000_0000
  const INT32_MAX: int := 0x7FFF_FFFF

  // ---------------------------------------------------------------------------
  // Argument parsing (PyArg_ParseTuple)

  /** One unit of a parse format: 'O', 'I', 'H', 'i' and 'f'. */
  datatype ArgFormat =
    | AnyObject   // 'O': the object itself
    | UInt        // 'I': unsigned int, no overflow check (the value is masked)
    | UShort      // 'H': unsigned short, no overflow check (the value is masked)
    | SInt        // 'i': signed int, range checked
    | Float       // 'f': C float

  /** A parsed C argument. */
  datatype CValue = CObject(obj: PyValue) | CInt(n: int) | CFloat(f: Float32)

  /** The integer an int-like object stands for (bool is a subclass of int). */
  function IntOf(v: PyValue): int
    requires v.PyInt? || v.PyBool?
  {
    if v.PyInt? then v.i else if v.b then 1 else 0
  }

  /** Converts one argument for one format unit. */
  function ParseArg(u: ArgFormat, v: PyValue): (r: Result<CValue>)
    ensures u == AnyObject ==> r == Success(CObject(v))
    ensures u in {UInt, UShort, SInt} ==> (r.Success? ==> v.PyInt? || v.PyBool?)
    ensures u == UInt && r.Success? ==> r.value.CInt? && 0 <= r.value.n < TWO_32 && r.value.n % TWO_32 == IntOf(v) % TWO_32
    ensures u == UShort && r.Success? ==> r.value.CInt? && 0 <= r.value.n < TWO_16 && r.value.n % TWO_16 == IntOf(v) % TWO_16
    ensures u == SInt && r.Success? ==> r == Success(CInt(IntOf(v))) && INT32_MIN <= IntOf(v) <= INT32_MAX
    ensures u == Float ==> (r.Success? <==> v.PyFloat?)
  {
    match u
    case AnyObject => Success(CObject(v))
    case UInt =>
      if v.PyInt? || v.PyBool? then Success(CInt(IntOf(v) % TWO_32)) else Failure(TypeError)
    case UShort =>
      if v.PyInt? || v.PyBool? then Success(CInt(IntOf(v) % TWO_16)) else Failure(TypeError)
    case SInt =>
      if !(v.PyInt? || v.PyBool?) then Failure(TypeError)
      else if IntOf(v) < INT32_MIN || INT32_MAX < IntOf(v) then Failure(OverflowError)
      else Success(CInt(IntOf(v)))
    case Float =>
      if v.PyFloat? then Success(CFloat(v.f)) else Failure(TypeError)
  }

  /** Parses arguments of equal count against their units, left to right. */
  function ParseEach(fmt: seq<ArgFormat>, args: seq<PyValue>): (r: Result<seq<CValue>>)
    requires |fmt| == |args|
    ensures r.Success? <==> forall i :: 0 <= i < |fmt| ==> ParseArg(fmt[i], args[i]).Success?
    ensures r.Success? ==> |r.value| == |fmt| && forall i :: 0 <= i < |fmt| ==> ParseArg(fmt[i], args[i]) == Success(r.value[i])
    ensures r.Failure? ==> r.error in {TypeError, OverflowError}
  {
    if |fmt| == 0 then Success([])
    else
      match ParseArg(fmt[0], args[0])
      case Failure(e) => Failure(e)
      case Success(c) =>
        match ParseEach(fmt[1..], args[1..])
        case Failure(e) => Failure(e)
        case Success(cs) => Success([c] + cs)
  }

  /**
   * PyArg_ParseTuple: the argument tuple must have exactly as many items as
   * the format has units, and every item must convert.
   */
  function ParseTuple(fmt: seq<ArgFormat>, args: seq<PyValue>): (r: Result<seq<CValue>>)
    ensures |fmt| != |args| ==> r == Failure(TypeError)
    ensures r.Success? <==> |fmt| == |args| && forall i :: 0 <= i < |fmt| ==> ParseArg(fmt[i], args[i]).Success?
    ensures r.Success? ==> |r.value| == |fmt| && forall i :: 0 <= i < |fmt| ==> ParseArg(fmt[i], args[i]) == Success(r.value[i])
  {
    if |fmt| != |args| then Failure(TypeError) else ParseEach(fmt, args)
  }

  /**
   * One-unit PyArg_ParseTuple on an argument object the caller passed along:
   * an object that is not a tuple raises SystemError.
   */
  function SingleArg(u: ArgFormat, args: PyValue): (r: Result<CValue>)
    ensures !args.PyTuple? ==> r == Failure(SystemError)
    ensures r.Success? <==> args.PyTuple? && |args.items| == 1 && ParseArg(u, args.items[0]).Success?
    ensures r.Success? ==> r == ParseArg(u, args.items[0])
  {
    if !args.PyTuple? then Failure(SystemError)
    else
      match ParseTuple([u], args.items)
      case Failure(e) => Failure(e)
      case Success(cs) => Success(cs[0])
  }

  /** Building an unsigned int with 'I' and parsing it back with 'I' gives the same number. */
  lemma UIntRoundTrip(n: uint32)
    ensures ParseTuple([UInt], [PyInt(n)]) == Success([CInt(n)])
  {
    var r := ParseTuple([UInt], [PyInt(n)]);
    assert ParseArg(UInt, PyInt(n)) == Success(CInt(n));
    assert r.Success? && r.value == [CInt(n)];
  }

  /** 'I' masks instead of refusing: -1 parses as 0xFFFFFFFF, and 2^32 parses as 0. */
  lemma UIntMasks()
    ensures ParseArg(UInt, PyInt(-1)) == Success(CInt(0xFFFF_FFFF))
    ensures ParseArg(UInt, PyInt(TWO_32)) == Success(CInt(0))
    ensures ParseArg(UInt, PyBool(true)) == Success(CInt(1))
    ensures ParseArg(UInt, PyFloat(Float32(0))) == Failure(TypeError)
  {
  }

  // ---------------------------------------------------------------------------
  // Value building (Py_BuildValue)

  /**
   * Py_BuildValue with a parenthesised format: a tuple of the items, or NULL
   * (None here) as soon as one item is NULL. A single-unit format without
   * parentheses returns its item unchanged and needs no function.
   */
  function BuildTuple(items: seq<Option<PyValue>>): (r: Option<PyValue>)
    ensures r.Some? <==> forall i :: 0 <= i < |items| ==> items[i].Some?
    ensures r.Some? ==> r.value.PyTuple? && |r.value.items| == |items|
    ensures r.Some? ==> forall i :: 0 <= i < |items| ==> items[i] == Some(r.value.items[i])
  {
    if |items| == 0 then Some(PyTuple([]))
    else
      match (items[0], BuildTuple(items[1..]))
      case (Some(v), Some(PyTuple(vs))) => Some(PyTuple([v] + vs))
      case _ => None
  }

  /** Every item present: the tuple holds exactly those values. */
  lemma BuildTupleOfValues(items: seq<Option<PyValue>>, vs: seq<PyValue>)
    requires |items| == |vs| && forall i :: 0 <= i < |vs| ==> items[i] == Some(vs[i])
    ensures BuildTuple(items) == Some(PyTuple(vs))
  {
    var r := BuildTuple(items);
    assert r.Some?;
    assert r.value.items == vs;
  }

  // ---------------------------------------------------------------------------
  // Int extraction (PyInt_AsLong with a 32-bit C long) and the cast to uint

  function Pow2(k: nat): (p: nat)
    ensures p >= 1
  {
    if k == 0 then 1 else 2 * Pow2(k - 1)
  }

  /** int(f) for a single-precision float: truncation toward zero; None for infinities and NaN. */
  function FloatTruncate(f: Float32): Option<int>
  {
    var exp := ((f.bits >> 23) & 0xFF) as int;
    var frac := (f.bits & 0x7F_FFFF) as int;
    if exp == 0xFF then None
    else if exp < 127 then Some(0)
    else
      var magnitude := (0x80_0000 + frac) * Pow2(exp - 127) / 0x80_0000;
      Some(if f.bits >> 31 == 1 then -magnitude else magnitude)
  }

  /**
   * PyInt_AsLong: ints and bools give their value, floats are truncated; a
   * value outside the 32-bit long range, or an object with no integer
   * conversion, gives the error sentinel -1.
   */
  function AsLong(v: PyValue): (n: int32)
    ensures (v.PyInt? || v.PyBool?) && INT32_MIN <= IntOf(v) <= INT32_MAX ==> n == IntOf(v)
    ensures !(v.PyInt? || v.PyBool? || v.PyFloat?) ==> n == -1
  {
    var x := match v
      case PyInt(i) => Some(i)
      case PyBool(b) => Some(if b then 1 else 0)
      case PyFloat(f) => FloatTruncate(f)
      case _ => None;
    if x.Some? && INT32_MIN <= x.value <= INT32_MAX then x.value else -1
  }

  /** The C cast `(uint)` of a 32-bit signed value: two's complement wrap-around. */
  function ToUInt(n: int32): (u: uint32)
    ensures 0 <= n ==> u == n
    ensures n < 0 ==> u == n + TWO_32 && u > INT32_MAX
  {
    n % TWO_32
  }

  /** A float result is truncated: 1.5 (0x3FC00000) reads as 1, -0.5 (0xBF000000) as 0. */
  lemma FloatResultsTruncate()
    ensures AsLong(PyFloat(Float32(0x3FC0_0000))) == 1
    ensures AsLong(PyFloat(Float32(0xBF00_0000))) == 0
    ensures AsLong(PyFloat(Float32(0x7F80_0000))) == -1
  {
    assert Pow2(0) == 1;
  }

  // ---------------------------------------------------------------------------
  // Tuple index (tuple.index)

  /** `s.index(x)`: the first position of x, or None where Python raises ValueError. */
  function IndexOf<T(==)>(s: seq<T>, x: T): (r: Option<nat>)
    ensures r.None? <==> x !in s
    ensures r.Some? ==> r.value < |s| && s[r.value] == x && x !in s[..r.value]
  {
    if |s| == 0 then None
    else if s[0] == x then Some(0)
    else
      match IndexOf(s[1..], x)
      case None => None
      case Some(k) =>
        assert s[..k + 1] == [s[0]] + s[1..][..k];
        Some(k + 1)
  }

  /** In a sequence without repeats, the index of the i-th element is i. */
  lemma {:induction false} IndexOfDistinct<T>(s: seq<T>, i: nat)
    requires forall a, b :: 0 <= a < b < |s| ==> s[a] != s[b]
    requires i < |s|
    ensures IndexOf(s, s[i]) == Some(i)
  {
    assert s[i] in s;
    assert forall k :: i < k <= |s| ==> s[..k][i] == s[i];
  }
}
