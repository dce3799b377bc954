/**
 * The host API wrappers a script calls through the embedded FLHook module.
 * Each one parses its argument tuple, calls one host function, and turns a
 * host error code into a pending FLHook.Error. The host functions and the
 * conversion of script objects to text are foreign and appear as parameters;
 * each outcome records which host call, if any, was made.
 */
module HostApi {
  import opened Native
  import opened PyValues
  import opened Converters

  /**
   * RaisePyException: a code other than HKE_OK becomes a pending FLHook.Error
   * carrying the code, and the wrapper must return NULL.
   */
  function RaisePyException(code: HkError): (raised: Option<PyException>)
    ensures raised.Some? <==> code != HKE_OK
    ensures raised.Some? ==> raised.value == HookError(code)
  {
    if code != HKE_OK then Some(HookError(code)) else None
  }

  /** The host functions the modelled wrappers call, and the text conversion of script objects. */
  datatype Host = Host(
    text: PyValue -> string,                             // pytows: str() of any object, widened
    msg: (string, string) -> HkError,                    // HkMsg(charname, text)
    getCash: string -> (HkError, int32),                 // HkGetCash(charname, &cash)
    enumCargo: string -> (HkError, seq<CargoInfo>),      // HkEnumCargo(charname, &cargo, &holdSize)
    rename: (string, string, bool) -> HkError)           // HkRename(charname, newName, ban)

  /** A host call with the arguments it was given. */
  datatype HostCall =
    | MsgCall(charname: string, text: string)
    | GetCashCall(charname: string)
    | EnumCargoCall(charname: string)
    | RenameCall(charname: string, newName: string, ban: bool)

  /** What a wrapper returns to the script, and the host call it made. */
  datatype Outcome = Outcome(result: Result<PyValue>, call: Option<HostCall>)

  /** The value a successful call returns, or the host's error. */
  function Answer(code: HkError, value: PyValue): (r: Result<PyValue>)
    ensures r.Failure? <==> code != HKE_OK
    ensures r.Success? ==> r.value == value
    ensures r.Failure? ==> r.error == HookError(code)
  {
    match RaisePyException(code)
    case Some(e) => Failure(e)
    case None => Success(value)
  }

  /** emb_HkMsg: "OO", then HkMsg on the two objects' text; None on success. */
  function HkMsg(args: seq<PyValue>, host: Host): (o: Outcome)
    ensures o.call.Some? <==> |args| == 2
    ensures o.call.None? ==> o.result == Failure(TypeError)
    ensures o.call.Some? ==> o.call.value == MsgCall(host.text(args[0]), host.text(args[1]))
    ensures o.call.Some? ==> o.result == Answer(host.msg(host.text(args[0]), host.text(args[1])), PyNone)
  {
    match ParseTuple([AnyObject, AnyObject], args)
    case Failure(e) => Outcome(Failure(e), None)
    case Success(cs) =>
      var charname, text := host.text(cs[0].obj), host.text(cs[1].obj);
      Outcome(Answer(host.msg(charname, text), PyNone), Some(MsgCall(charname, text)))
  }

  /** emb_HkGetCash: "O", then HkGetCash; the balance as a signed int on success. */
  function HkGetCash(args: seq<PyValue>, host: Host): (o: Outcome)
    ensures o.call.Some? <==> |args| == 1
    ensures o.call.None? ==> o.result == Failure(TypeError)
    ensures o.call.Some? ==> o.call.value == GetCashCall(host.text(args[0]))
    ensures o.call.Some? ==>
              o.result == Answer(host.getCash(host.text(args[0])).0, PyInt(host.getCash(host.text(args[0])).1))
  {
    match ParseTuple([AnyObject], args)
    case Failure(e) => Outcome(Failure(e), None)
    case Success(cs) =>
      var charname := host.text(cs[0].obj);
      var (code, cash) := host.getCash(charname);
      Outcome(Answer(code, PyInt(cash)), Some(GetCashCall(charname)))
  }

  /** emb_HkEnumCargo: "O", then HkEnumCargo; on success the cargo list as a tuple of CARGO_INFO snapshots. */
  function HkEnumCargo(args: seq<PyValue>, host: Host): (o: Outcome)
    ensures o.call.Some? <==> |args| == 1
    ensures o.call.None? ==> o.result == Failure(TypeError)
    ensures o.call.Some? ==> o.call.value == EnumCargoCall(host.text(args[0]))
    ensures o.call.Some? ==>
              o.result == Answer(host.enumCargo(host.text(args[0])).0, CargoTuple(host.enumCargo(host.text(args[0])).1))
    ensures o.result.Success? ==>
              |o.result.value.items| == |host.enumCargo(host.text(args[0])).1| &&
              forall i :: 0 <= i < |o.result.value.items| ==>
                Some(o.result.value.items[i]) == CargoInfoToPython(host.enumCargo(host.text(args[0])).1[i])
  {
    match ParseTuple([AnyObject], args)
    case Failure(e) => Outcome(Failure(e), None)
    case Success(cs) =>
      var charname := host.text(cs[0].obj);
      var (code, cargo) := host.enumCargo(charname);
      Outcome(Answer(code, CargoTuple(cargo)), Some(EnumCargoCall(charname)))
  }

  /** The arguments of HkRename: two objects and a signed int used as a flag. */
  function RenameArgs(args: seq<PyValue>): (r: Result<seq<CValue>>)
    ensures r.Success? <==> |args| == 3 && (args[2].PyInt? || args[2].PyBool?) && INT32_MIN <= IntOf(args[2]) <= INT32_MAX
    ensures r.Success? ==> r.value == [CObject(args[0]), CObject(args[1]), CInt(IntOf(args[2]))]
  {
    ParseTuple([AnyObject, AnyObject, SInt], args)
  }

  /**
   * emb_HkRename as written: the parse test is inverted, so arguments that
   * parse make it return NULL with no exception set (which the interpreter
   * reports as SystemError) and the host is never asked to rename.
   */
  function HkRenameAsWritten(args: seq<PyValue>, host: Host): (o: Outcome)
    ensures o.call.None? && o.result.Failure?
    ensures RenameArgs(args).Success? ==> o.result == Failure(SystemError)
  {
    match RenameArgs(args)
    case Success(_) => Outcome(Failure(SystemError), None)
    case Failure(e) => Outcome(Failure(e), None)
  }

  /** emb_HkRename with the test the other wrappers use: the host renames when the arguments parse. */
  function HkRename(args: seq<PyValue>, host: Host): (o: Outcome)
    ensures o.call.Some? <==> RenameArgs(args).Success?
    ensures o.call.None? ==> o.result.Failure? && o.result.error in {TypeError, OverflowError}
    ensures o.call.Some? ==>
              o.call.value == RenameCall(host.text(args[0]), host.text(args[1]), IntOf(args[2]) != 0)
    ensures o.call.Some? ==> o.result == Answer(host.rename(host.text(args[0]), host.text(args[1]), IntOf(args[2]) != 0), PyNone)
  {
    match RenameArgs(args)
    case Failure(e) => Outcome(Failure(e), None)
    case Success(cs) =>
      var charname, newName, ban := host.text(cs[0].obj), host.text(cs[1].obj), cs[2].n != 0;
      Outcome(Answer(host.rename(charname, newName, ban), PyNone), Some(RenameCall(charname, newName, ban)))
  }

  /** A well-formed rename that the host accepts: refused as written, done once corrected. */
  lemma RenameRefusedAsWritten(charname: string, newName: string, host: Host)
    requires host.rename(host.text(PyStr(charname)), host.text(PyStr(newName)), true) == HKE_OK
    ensures HkRenameAsWritten([PyStr(charname), PyStr(newName), PyInt(1)], host).result == Failure(SystemError)
    ensures HkRename([PyStr(charname), PyStr(newName), PyInt(1)], host).result == Success(PyNone)
    ensures HkRename([PyStr(charname), PyStr(newName), PyInt(1)], host).call
            == Some(RenameCall(host.text(PyStr(charname)), host.text(PyStr(newName)), true))
  {
    assert RenameArgs([PyStr(charname), PyStr(newName), PyInt(1)]).Success?;
  }
}
