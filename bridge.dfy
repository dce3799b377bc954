/**
 * The plugin side of the bridge: the two globals every hook consults
 * (`g_bEnabled` and the plugin return code), the loaded script module, the
 * interpreter's start-up and shut-down, the dispatch of one event to the
 * script's `_callback` and the decoding of its answer into a directive for
 * the host, and a representative set of hooks.
 *
 * The interpreter and the script are foreign: what importing the module,
 * looking up its attributes and calling its entry points yields is a
 * `Script` value fixed when the bridge is built. The bridge records every call
 * it makes into the script, so "the script is not called" is part of the
 * state a method promises.
 */
module Bridge {
  import opened Native
  import opened PyValues
  import opened Converters
  import ScriptLibrary

  /** What loading the script module yields, and what its entry points answer. */
  datatype Script = Script(
    imports: bool,                                    // importing freelancer.embedded succeeds
    defines: set<string>,                             // the module attributes that exist
    init: Result<PyValue>,                            // what _init() returns or raises
    shutdown: Result<PyValue>,                        // what _shutdown() returns or raises
    callback: (string, PyValue) -> Result<PyValue>)   // what _callback(event, data) returns or raises

  /** The two entry points pyBasicCall is used for. */
  datatype Entry = InitEntry | ShutdownEntry
  {
    function Name(): string
    {
      match this
      case InitEntry => "_init"
      case ShutdownEntry => "_shutdown"
    }
  }

  /** A call the bridge made into the script. */
  datatype ScriptCall = EntryCall(entry: Entry) | CallbackCall(event: string, data: PyValue)

  /** The bridge's state: g_bEnabled, returncode, whether pModule is set, and the calls made so far. */
  datatype BridgeState = BridgeState(enabled: bool, returncode: ReturnCode, moduleLoaded: bool, calls: seq<ScriptCall>)

  /** The library script as shipped: every attribute is defined and every entry point succeeds. */
  function LibraryScript(): Script
  {
    Script(true, {"convertConst", "convertClass", "_callback", "_init", "_shutdown"},
           ScriptLibrary.Init().result, ScriptLibrary.Shutdown().result,
           (event, data) => ScriptLibrary.Callback(event, data).result)
  }

  // ---------------------------------------------------------------------------
  // Decoding the script's answer

  /** The directive named by the script's unsigned result: 1, 2 and 3 name one each, any other value none. */
  function Decode(n: uint32): (rc: Option<ReturnCode>)
    ensures rc.Some? <==> 1 <= n <= 3
    ensures rc.Some? ==> rc.value.Value() == n
  {
    if n == 1 then Some(SkipPlugins)
    else if n == 2 then Some(SkipPluginsNoFunctionCall)
    else if n == 3 then Some(NoFunctionCall)
    else None
  }

  /** Decoding inverts the enum's values except for the default, which is never decoded but kept. */
  lemma DecodeInvertsValue(rc: ReturnCode)
    ensures rc != DefaultReturnCode ==> Decode(rc.Value()) == Some(rc)
    ensures rc == DefaultReturnCode ==> Decode(rc.Value()).None?
  {
  }

  /**
   * `iResult`: DEFAULT_RETURNCODE when the call raised, otherwise
   * `(uint)PyInt_AsLong(result)`; a negative answer becomes a large unsigned
   * value and an answer that is not a number becomes 0xFFFFFFFF.
   */
  function ResultCode(res: Result<PyValue>): (n: uint32)
    ensures res.Failure? ==> n == 0
    ensures res.Success? && res.value.PyInt? && 0 <= res.value.i <= INT32_MAX ==> n == res.value.i
    ensures res.Success? && res.value.PyInt? && INT32_MIN <= res.value.i < 0 ==> n > INT32_MAX
    ensures res.Success? && !(res.value.PyInt? || res.value.PyBool? || res.value.PyFloat?) ==> n == 0xFFFF_FFFF
  {
    match res
    case Failure(_) => 0
    case Success(v) => ToUInt(AsLong(v))
  }

  /** The return code after the script answered `res`: the decoded directive, or `current` when none is decoded. */
  function Directive(current: ReturnCode, res: Result<PyValue>): (rc: ReturnCode)
    ensures res.Failure? ==> rc == current
    ensures rc != current ==> rc.Value() == ResultCode(res)
  {
    match Decode(ResultCode(res))
    case Some(decoded) => decoded
    case None => current
  }

  /**
   * Answers 1, 2 and 3 select SKIPPLUGINS, SKIPPLUGINS_NOFUNCTIONCALL and
   * NOFUNCTIONCALL; 0, anything from 4 up and every negative int32 keep the
   * current code.
   */
  lemma DirectiveTable(current: ReturnCode, i: int)
    requires INT32_MIN <= i <= INT32_MAX
    ensures i == 1 ==> Directive(current, Success(PyInt(i))) == SkipPlugins
    ensures i == 2 ==> Directive(current, Success(PyInt(i))) == SkipPluginsNoFunctionCall
    ensures i == 3 ==> Directive(current, Success(PyInt(i))) == NoFunctionCall
    ensures !(1 <= i <= 3) ==> Directive(current, Success(PyInt(i))) == current
  {
  }

  /** The code a hook leaves after dispatching `data`: NULL data keeps the default; otherwise the script's directive. */
  function HookDirective(script: Script, event: string, data: Option<PyValue>): (rc: ReturnCode)
    ensures data.None? ==> rc == DefaultReturnCode
    ensures data.Some? && script.callback(event, data.value).Failure? ==> rc == DefaultReturnCode
  {
    match data
    case None => DefaultReturnCode
    case Some(d) => Directive(DefaultReturnCode, script.callback(event, d))
  }

  /** The calls a dispatch of `data` makes: one callback, or none for NULL data. */
  function Dispatched(event: string, data: Option<PyValue>): (calls: seq<ScriptCall>)
    ensures |calls| <= 1
    ensures calls == [] <==> data.None?
  {
    match data
    case None => []
    case Some(d) => [CallbackCall(event, d)]
  }

  /** With the library script, whatever the event, every hook keeps the default directive. */
  lemma LibraryNeverRedirects(event: string, data: Option<PyValue>)
    ensures HookDirective(LibraryScript(), event, data) == DefaultReturnCode
  {
    if data.Some? {
      var res := LibraryScript().callback(event, data.value);
      assert res == Success(PyInt(0));
      assert ResultCode(res) == 0;
    }
  }

  // ---------------------------------------------------------------------------
  // Start-up

  /** Start-up reaches the `_init` call: the import and the three attribute lookups succeed and `_init` exists. */
  predicate ReachesInit(script: Script)
  {
    script.imports && "convertConst" in script.defines && "convertClass" in script.defines &&
    "_callback" in script.defines && "_init" in script.defines
  }

  /** What an entry point answers when called. */
  function EntryResult(script: Script, e: Entry): Result<PyValue>
  {
    match e
    case InitEntry => script.init
    case ShutdownEntry => script.shutdown
  }

  /** Start-up leaves the bridge enabled exactly when every step succeeds, `_init` included. */
  predicate StartSucceeds(script: Script)
  {
    ReachesInit(script) && script.init.Success?
  }

  /** The shipped library passes every start-up step. */
  lemma LibraryStarts()
    ensures StartSucceeds(LibraryScript())
  {
  }

  class Bridge {
    const script: Script
    var enabled: bool              // g_bEnabled
    var returncode: ReturnCode     // returncode, read by the host after each hook
    var moduleLoaded: bool         // pModule != NULL
    var calls: seq<ScriptCall>     // the calls made into the script, in order

    /** The plugin is only enabled while the script module is loaded. */
    predicate Valid()
      reads this
    {
      enabled ==> moduleLoaded
    }

    function State(): BridgeState
      reads this
    {
      BridgeState(enabled, returncode, moduleLoaded, calls)
    }

    /** The globals before StartPython: disabled, the default code, no module. */
    constructor (script: Script)
      ensures this.script == script
      ensures State() == BridgeState(false, DefaultReturnCode, false, [])
      ensures Valid()
    {
      this.script := script;
      enabled, returncode, moduleLoaded, calls := false, DefaultReturnCode, false, [];
    }

    // -------------------------------------------------------------------------
    // The macros of the hook bodies

    /** DEFAULT_CHECK / DEFAULT_CHECK_V: reset the code, then go on only when enabled. */
    method DefaultCheck() returns (proceed: bool)
      modifies this
      ensures proceed == enabled
      ensures State() == old(State()).(returncode := DefaultReturnCode)
    {
      returncode := DefaultReturnCode;
      proceed := enabled;
    }

    /** CHECK_AND_DISABLE: a pending exception disables the plugin and stops the caller; otherwise nothing changes. */
    method CheckAndDisable(pending: bool) returns (stop: bool)
      modifies this
      ensures stop == pending
      ensures State() == old(State()).(enabled := old(enabled) && !pending)
    {
      stop := pending;
      if pending {
        enabled := false;
      }
    }

    /** CHECK_AND_DISABLE_NORET: a pending exception disables the plugin, and the caller goes on. */
    method CheckAndDisableNoRet(pending: bool)
      modifies this
      ensures State() == old(State()).(enabled := old(enabled) && !pending)
    {
      if pending {
        enabled := false;
      }
    }

    // -------------------------------------------------------------------------
    // Calls into the script

    /**
     * pyBasicCall: looks the entry point up and calls it with no arguments;
     * true when both the lookup and the call succeed. A lookup on a missing
     * module or a missing name fails before any call.
     */
    method PyBasicCall(e: Entry) returns (ok: bool)
      modifies this
      ensures ok <==> moduleLoaded && e.Name() in script.defines && EntryResult(script, e).Success?
      ensures State() == old(State()).(calls := old(calls) +
                (if moduleLoaded && e.Name() in script.defines then [EntryCall(e)] else []))
    {
      if !moduleLoaded || e.Name() !in script.defines {
        return false;
      }
      calls := calls + [EntryCall(e)];
      ok := EntryResult(script, e).Success?;
    }

    /**
     * StartPython: enables the plugin, then disables it at the first step
     * that fails (import, the convertConst, convertClass and _callback
     * lookups, _init); no later step runs.
     */
    method StartPython()
      modifies this
      ensures enabled <==> StartSucceeds(script)
      ensures moduleLoaded == script.imports
      ensures returncode == old(returncode)
      ensures calls == old(calls) + (if ReachesInit(script) then [EntryCall(InitEntry)] else [])
      ensures Valid()
    {
      enabled := true;
      moduleLoaded := script.imports;
      var stop := CheckAndDisable(!script.imports);
      if stop {
        return;
      }
      stop := CheckAndDisable("convertConst" !in script.defines);
      if stop {
        return;
      }
      stop := CheckAndDisable("convertClass" !in script.defines);
      if stop {
        return;
      }
      stop := CheckAndDisable("_callback" !in script.defines);
      if stop {
        return;
      }
      var ok := PyBasicCall(InitEntry);
      if !ok {
        enabled := false;
      }
    }

    /** StopPython: calls `_shutdown` only when enabled, and a failure there changes nothing. */
    method StopPython()
      modifies this
      ensures State() == old(State()).(calls := old(calls) +
                (if old(enabled) && moduleLoaded && "_shutdown" in script.defines then [EntryCall(ShutdownEntry)] else []))
    {
      if enabled {
        var _ := PyBasicCall(ShutdownEntry);
      }
    }

    /**
     * pyCallback: with the module gone the plugin is disabled and nothing is
     * called; NULL data is skipped; otherwise the script is called and its
     * answer decoded. An exception in the script keeps the current code and
     * leaves the plugin enabled.
     */
    method PyCallback(event: string, data: Option<PyValue>)
      modifies this
      ensures !old(moduleLoaded) ==> State() == old(State()).(enabled := false)
      ensures old(moduleLoaded) && data.None? ==> State() == old(State())
      ensures old(moduleLoaded) && data.Some? ==>
                State() == old(State()).(returncode := Directive(old(returncode), script.callback(event, data.value)),
                                         calls := old(calls) + [CallbackCall(event, data.value)])
    {
      if !moduleLoaded {
        enabled := false;
        return;
      }
      if data.None? {
        return;
      }
      calls := calls + [CallbackCall(event, data.value)];
      var iResult := ResultCode(script.callback(event, data.value));
      match Decode(iResult) {
        case Some(rc) => returncode := rc;
        case None =>
      }
    }

    // -------------------------------------------------------------------------
    // Hooks

    /** The body shared by the void hooks: DEFAULT_CHECK, then dispatch the marshalled data. */
    method Hook(event: string, data: Option<PyValue>)
      requires Valid()
      modifies this
      ensures Valid()
      ensures old(enabled) ==>
                State() == old(State()).(returncode := HookDirective(script, event, data),
                                         calls := old(calls) + Dispatched(event, data))
      ensures !old(enabled) ==> State() == old(State()).(returncode := DefaultReturnCode)
    {
      var proceed := DefaultCheck();
      if !proceed {
        return;
      }
      PyCallback(event, data);
    }

    /** HkIServerImpl::Update: dispatches None every tick, then resets the code whatever the script said; returns 0. */
    method Update() returns (result: int)
      requires Valid()
      modifies this
      ensures Valid() && result == 0
      ensures State() == old(State()).(returncode := DefaultReturnCode,
                                       calls := old(calls) + (if old(enabled) then [CallbackCall("HkIServerImpl_Update", PyNone)] else []))
    {
      result := 0;
      var proceed := DefaultCheck();
      if !proceed {
        return;
      }
      PyCallback("HkIServerImpl_Update", Some(PyNone));
      returncode := DefaultReturnCode;
    }

    /**
     * HkIServerImpl::SubmitChat, given the text already extracted from the
     * chat buffer: a message to recipient 0x10004 (group join and leave
     * commands) is never dispatched.
     */
    method SubmitChat(from: uint32, text: string, to: uint32, p2: int32)
      requires Valid()
      modifies this
      ensures Valid()
      ensures to == 0x10004 || !old(enabled) ==> State() == old(State()).(returncode := DefaultReturnCode)
      ensures to != 0x10004 && old(enabled) ==>
                var data := Some(PyTuple([PyInt(from), PyStr(text), PyInt(to), PyInt(p2)]));
                State() == old(State()).(returncode := HookDirective(script, "HkCbIServerImpl_SubmitChat", data),
                                         calls := old(calls) + Dispatched("HkCbIServerImpl_SubmitChat", data))
    {
      var proceed := DefaultCheck();
      if !proceed || to == 0x10004 {
        return;
      }
      var items := [Int(from), StringToPython(text), Int(to), Int(p2)];
      BuildTupleOfValues(items, [PyInt(from), PyStr(text), PyInt(to), PyInt(p2)]);
      PyCallback("HkCbIServerImpl_SubmitChat", BuildTuple(items));
    }

    /** HkIServerImpl::FireWeapon: dispatches the client id and the weapon snapshot. */
    method FireWeapon(clientId: uint32, wpn: XFireWeaponInfo)
      requires Valid()
      modifies this
      ensures Valid()
      ensures var data := Some(PyTuple([PyInt(clientId), XFireWeaponInfoToPython(wpn).value]));
              old(enabled) ==>
                State() == old(State()).(returncode := HookDirective(script, "HkCbIServerImpl_FireWeapon", data),
                                         calls := old(calls) + Dispatched("HkCbIServerImpl_FireWeapon", data))
      ensures !old(enabled) ==> State() == old(State()).(returncode := DefaultReturnCode)
    {
      var items := [Int(clientId), XFireWeaponInfoToPython(wpn)];
      BuildTupleOfValues(items, [PyInt(clientId), XFireWeaponInfoToPython(wpn).value]);
      Hook("HkCbIServerImpl_FireWeapon", BuildTuple(items));
    }

    /** HkIServerImpl::OnConnect: a single "I" unit builds the bare int, not a tuple. */
    method OnConnect(clientId: uint32)
      requires Valid()
      modifies this
      ensures Valid()
      ensures old(enabled) ==>
                State() == old(State()).(returncode := HookDirective(script, "HkCbIServerImpl_OnConnect", Some(PyInt(clientId))),
                                         calls := old(calls) + [CallbackCall("HkCbIServerImpl_OnConnect", PyInt(clientId))])
      ensures !old(enabled) ==> State() == old(State()).(returncode := DefaultReturnCode)
    {
      Hook("HkCbIServerImpl_OnConnect", Int(clientId));
    }

    /**
     * HkIServerImpl::CreateNewCharacter as written: the character snapshot
     * cannot be built (four values for a six-field record), so the data is
     * NULL and the event never reaches the script.
     */
    method CreateNewCharacterAsWritten(scci: SCreateCharacterInfo, clientId: uint32)
      requires Valid()
      modifies this
      ensures Valid()
      ensures State() == old(State()).(returncode := DefaultReturnCode)
    {
      Hook("HkCbIServerImpl_CreateNewCharacter", BuildTuple([SCreateCharacterInfoToPython(scci), Int(clientId)]));
    }

    /** HkIServerImpl::CreateNewCharacter with the six-value snapshot: the event is dispatched. */
    method CreateNewCharacter(scci: SCreateCharacterInfo, clientId: uint32)
      requires Valid()
      modifies this
      ensures Valid()
      ensures var data := Some(PyTuple([SCreateCharacterInfoToPythonFixed(scci).value, PyInt(clientId)]));
              old(enabled) ==>
                State() == old(State()).(returncode := HookDirective(script, "HkCbIServerImpl_CreateNewCharacter", data),
                                         calls := old(calls) + [CallbackCall("HkCbIServerImpl_CreateNewCharacter", data.value)])
      ensures !old(enabled) ==> State() == old(State()).(returncode := DefaultReturnCode)
    {
      var items := [SCreateCharacterInfoToPythonFixed(scci), Int(clientId)];
      BuildTupleOfValues(items, [SCreateCharacterInfoToPythonFixed(scci).value, PyInt(clientId)]);
      Hook("HkCbIServerImpl_CreateNewCharacter", BuildTuple(items));
    }

    /** HkCb_AddDmgEntry: dispatches a live DamageList wrapper, not a snapshot, with the entry's values. */
    method AddDmgEntry(dmg: LiveDamageList, subobj: uint16, health: Float32, fate: uint32)
      requires Valid()
      modifies this
      ensures Valid()
      ensures var data := Some(PyTuple([PyInstance("DamageList", PyCapsule(DamageListRef(dmg))),
                                        PyInt(subobj), PyFloat(health), PyInt(fate)]));
              old(enabled) ==>
                State() == old(State()).(returncode := HookDirective(script, "HkCb_AddDmgEntry", data),
                                         calls := old(calls) + Dispatched("HkCb_AddDmgEntry", data))
      ensures !old(enabled) ==> State() == old(State()).(returncode := DefaultReturnCode)
    {
      var handle := PyInstance("DamageList", PyCapsule(DamageListRef(dmg)));
      var items := [DamageListHandle(dmg), Int(subobj), Flt(health), Int(fate)];
      BuildTupleOfValues(items, [handle, PyInt(subobj), PyFloat(health), PyInt(fate)]);
      Hook("HkCb_AddDmgEntry", BuildTuple(items));
    }

    /**
     * AllowPlayerDamage as written: the `return false` after the reset is not
     * guarded by the test, so damage is refused whenever the plugin is enabled.
     */
    method AllowPlayerDamageAsWritten(client: uint32, target: uint32) returns (allow: bool)
      requires Valid()
      modifies this
      ensures Valid()
      ensures allow <==> !old(enabled)
      ensures State() == old(State()).(returncode := DefaultReturnCode,
                calls := old(calls) + (if old(enabled) then [CallbackCall("HkCb_AllowPlayerDamage", PyTuple([PyInt(client), PyInt(target)]))] else []))
    {
      var proceed := DefaultCheck();
      if !proceed {
        return true;
      }
      PyCallback("HkCb_AllowPlayerDamage", Some(PyTuple([PyInt(client), PyInt(target)])));
      if returncode != DefaultReturnCode {
        returncode := DefaultReturnCode;
      }
      return false;
    }

    /** AllowPlayerDamage with the reset and the refusal both under the test: damage is refused only when the script asks. */
    method AllowPlayerDamage(client: uint32, target: uint32) returns (allow: bool)
      requires Valid()
      modifies this
      ensures Valid()
      ensures var data := Some(PyTuple([PyInt(client), PyInt(target)]));
              allow <==> !old(enabled) || HookDirective(script, "HkCb_AllowPlayerDamage", data) == DefaultReturnCode
      ensures State() == old(State()).(returncode := DefaultReturnCode,
                calls := old(calls) + (if old(enabled) then [CallbackCall("HkCb_AllowPlayerDamage", PyTuple([PyInt(client), PyInt(target)]))] else []))
    {
      var proceed := DefaultCheck();
      if !proceed {
        return true;
      }
      PyCallback("HkCb_AllowPlayerDamage", Some(PyTuple([PyInt(client), PyInt(target)])));
      if returncode != DefaultReturnCode {
        returncode := DefaultReturnCode;
        return false;
      }
      return true;
    }

    /** UserCmd_Process: the command counts as handled exactly when the script changed the directive. */
    method UserCmdProcess(clientId: uint32, cmd: string) returns (handled: bool)
      requires Valid()
      modifies this
      ensures Valid()
      ensures var data := Some(PyTuple([PyInt(clientId), PyStr(cmd)]));
              handled <==> old(enabled) && HookDirective(script, "UserCmd_Process", data) != DefaultReturnCode
      ensures old(enabled) ==>
                State() == old(State()).(returncode := HookDirective(script, "UserCmd_Process", Some(PyTuple([PyInt(clientId), PyStr(cmd)]))),
                                         calls := old(calls) + [CallbackCall("UserCmd_Process", PyTuple([PyInt(clientId), PyStr(cmd)]))])
      ensures !old(enabled) ==> State() == old(State()).(returncode := DefaultReturnCode)
    {
      var proceed := DefaultCheck();
      if !proceed {
        return false;
      }
      PyCallback("UserCmd_Process", Some(PyTuple([PyInt(clientId), PyStr(cmd)])));
      handled := returncode != DefaultReturnCode;
    }

    /** ExecuteCommandString_Callback: as UserCmd_Process, with None in place of the command object. */
    method ExecuteCommandString(cmd: string) returns (handled: bool)
      requires Valid()
      modifies this
      ensures Valid()
      ensures var data := Some(PyTuple([PyNone, PyStr(cmd)]));
              handled <==> old(enabled) && HookDirective(script, "ExecuteCommandString_Callback", data) != DefaultReturnCode
      ensures old(enabled) ==>
                State() == old(State()).(returncode := HookDirective(script, "ExecuteCommandString_Callback", Some(PyTuple([PyNone, PyStr(cmd)]))),
                                         calls := old(calls) + [CallbackCall("ExecuteCommandString_Callback", PyTuple([PyNone, PyStr(cmd)]))])
      ensures !old(enabled) ==> State() == old(State()).(returncode := DefaultReturnCode)
    {
      var proceed := DefaultCheck();
      if !proceed {
        return false;
      }
      PyCallback("ExecuteCommandString_Callback", Some(PyTuple([PyNone, PyStr(cmd)])));
      handled := returncode != DefaultReturnCode;
    }
  }

  /**
   * A session with the shipped library: start-up enables the plugin and
   * calls `_init`, and a user command is then never reported as handled.
   */
  method LibrarySession(clientId: uint32, cmd: string) returns (handled: bool, b: Bridge)
    ensures b.enabled && !handled
    ensures b.calls == [EntryCall(InitEntry), CallbackCall("UserCmd_Process", PyTuple([PyInt(clientId), PyStr(cmd)]))]
  {
    b := new Bridge(LibraryScript());
    b.StartPython();
    LibraryStarts();
    LibraryNeverRedirects("UserCmd_Process", Some(PyTuple([PyInt(clientId), PyStr(cmd)])));
    handled := b.UserCmdProcess(clientId, cmd);
  }
}
