/**
 * The script library's entry module: the host error codes and plugin return
 * codes it exports, the table of events too frequent to log, and the three
 * entry points the bridge calls (`_init`, `_shutdown` and `_callback`). The
 * logger's console output is represented by whether a line is written.
 */
module ScriptLibrary {
  import opened Native
  import opened PyValues
  import opened Registry

  // ---------------------------------------------------------------------------
  // Host error codes: the code is the name's position.

  const HKE_NAMES_LOW: seq<string> := [
    "HKE_OK", "HKE_PLAYER_NOT_LOGGED_IN", "HKE_CHAR_DOES_NOT_EXIST", "HKE_COULD_NOT_DECODE_CHARFILE",
    "HKE_COULD_NOT_ENCODE_CHARFILE", "HKE_INVALID_BASENAME", "HKE_UNKNOWN_ERROR", "HKE_INVALID_CLIENT_ID",
    "HKE_INVALID_GROUP_ID", "HKE_INVALID_ID_STRING", "HKE_INVALID_SYSTEM", "HKE_PLAYER_NOT_IN_SPACE",
    "HKE_PLAYER_NOT_DOCKED", "HKE_PLAYER_NO_ADMIN", "HKE_WRONG_XML_SYNTAX", "HKE_INVALID_GOOD"]
  const HKE_NAMES_HIGH: seq<string> := [
    "HKE_NO_CHAR_SELECTED", "HKE_CHARNAME_ALREADY_EXISTS", "HKE_CHARNAME_TOO_LONG", "HKE_CHARNAME_TOO_SHORT",
    "HKE_AMBIGUOUS_SHORTCUT", "HKE_NO_MATCHING_PLAYER", "HKE_INVALID_SHORTCUT_STRING",
    "HKE_MPNEWCHARACTERFILE_NOT_FOUND_OR_INVALID", "HKE_INVALID_REP_GROUP", "HKE_COULD_NOT_GET_PATH",
    "HKE_NO_TASKKILL", "HKE_SYSTEM_NO_MATCH", "HKE_OBJECT_NO_DOCK", "HKE_CARGO_WONT_FIT",
    "HKE_NAME_NOT_MATCH_RESTRICTION"]
  const HKE_NAMES: seq<string> := HKE_NAMES_LOW + HKE_NAMES_HIGH

  /** The value the library binds to an error-code name, if it defines one. */
  function ErrorCode(name: string): (code: Option<nat>)
    ensures code.Some? <==> name in HKE_NAMES
    ensures code.Some? ==> code.value < |HKE_NAMES| && HKE_NAMES[code.value] == name
  {
    IndexOf(HKE_NAMES, name)
  }

  /** The codes 0 to 15 are named once each. */
  lemma LowErrorNamesDistinct()
    ensures FieldsDistinct(HKE_NAMES_LOW)
  {
  }

  /** The codes 16 to 30 are named once each. */
  lemma HighErrorNamesDistinct()
    ensures FieldsDistinct(HKE_NAMES_HIGH)
  {
  }

  /** No name of a code from 16 up repeats a name of a lower code. */
  lemma ErrorNamesApart()
    ensures Disjoint(HKE_NAMES_LOW, HKE_NAMES_HIGH)
  {
  }

  /** HKE_OK is 0, the host's success code; the other thirty names have the codes 1 to 30, one each. */
  lemma ErrorCodesDistinct()
    ensures |HKE_NAMES| == 31
    ensures ErrorCode("HKE_OK") == Some(HKE_OK)
    ensures FieldsDistinct(HKE_NAMES)
    ensures forall a, b :: a in HKE_NAMES && b in HKE_NAMES && a != b ==> ErrorCode(a) != ErrorCode(b)
  {
    LowErrorNamesDistinct();
    HighErrorNamesDistinct();
    ErrorNamesApart();
    DistinctJoin(HKE_NAMES_LOW, HKE_NAMES_HIGH);
    assert HKE_NAMES[0] == "HKE_OK";
  }

  // ---------------------------------------------------------------------------
  // Plugin return codes

  const DEFAULT_RETURNCODE: int := 0
  const SKIPPLUGINS: int := 1
  const SKIPPLUGINS_NOFUNCTIONCALL: int := 2
  const NOFUNCTIONCALL: int := 3

  /** The library's names for the four directives carry the host enum's values. */
  lemma ReturnCodesAgree()
    ensures DEFAULT_RETURNCODE == DefaultReturnCode.Value()
    ensures SKIPPLUGINS == SkipPlugins.Value()
    ensures SKIPPLUGINS_NOFUNCTIONCALL == SkipPluginsNoFunctionCall.Value()
    ensures NOFUNCTIONCALL == NoFunctionCall.Value()
  {
  }

  // ---------------------------------------------------------------------------
  // Logging policy and entry points

  /** `logtypes`: events that are not logged. */
  const LOGTYPES: map<string, bool> := map[
    "HkCbIServerImpl_Update" := false,
    "HkCbIServerImpl_SPObjUpdate" := false,
    "HkCbIServerImpl_SPObjUpdate_AFTER" := false,
    "HkCbIServerImpl_ActivateThrusters" := false,
    "HkCbIServerImpl_ActivateThrusters_AFTER" := false,
    "HkCbIServerImpl_ActivateEquip" := false,
    "HkCbIServerImpl_ActivateEquip_AFTER" := false,
    "HkCbIServerImpl_FireWeapon" := false,
    "HkCbIServerImpl_FireWeapon_AFTER" := false,
    "HkCbIServerImpl_SPMunitionCollision" := false,
    "HkCbIServerImpl_SPMunitionCollision_AFTER" := false,
    "ShipDestroyed" := false,
    "HkTimerCheckKick" := false,
    "HkCb_Elapse_Time" := false,
    "HkCb_Elapse_Time_AFTER" := false,
    "HkCb_Update_Time" := false,
    "HkCb_Update_Time_AFTER" := false,
    "HkCb_AddDmgEntry" := false,
    "HkCb_AddDmgEntry_AFTER" := false,
    "HkCbIServerImpl_SetWeaponGroup" := false,
    "HkCbIServerImpl_SetWeaponGroup_AFTER" := false
  ]

  /** `logtypes.get(event, True)`: whether `_callback` writes a line for the event. */
  function ShouldLog(event: string): (logged: bool)
    ensures event !in LOGTYPES ==> logged
    ensures event in LOGTYPES ==> logged == LOGTYPES[event]
  {
    if event in LOGTYPES then LOGTYPES[event] else true
  }

  /** Every entry of the table says False, so an event is logged exactly when it is not listed. */
  lemma LoggedIffUnlisted(event: string)
    ensures ShouldLog(event) <==> event !in LOGTYPES
  {
    assert forall e :: e in LOGTYPES ==> !LOGTYPES[e];
  }

  /**
   * The bridge's Update hook sends "HkIServerImpl_Update", which is not the
   * listed "HkCbIServerImpl_Update", so the per-tick event is logged.
   */
  lemma UpdateEventIsLogged()
    ensures ShouldLog("HkIServerImpl_Update")
    ensures !ShouldLog("HkCbIServerImpl_Update")
  {
  }

  /** What an entry point returns, and whether it wrote a log line. */
  datatype EntryResult = EntryResult(result: Result<PyValue>, logged: bool)

  /** `_callback(event, data)`: logs by the table and always answers DEFAULT_RETURNCODE. */
  function Callback(event: string, data: PyValue): (r: EntryResult)
    ensures r.result == Success(PyInt(DefaultReturnCode.Value()))
    ensures r.logged <==> event !in LOGTYPES
  {
    LoggedIffUnlisted(event);
    EntryResult(Success(PyInt(DEFAULT_RETURNCODE)), ShouldLog(event))
  }

  /** `_init()`: writes "Python Loaded OK!" and returns None. */
  function Init(): (r: EntryResult)
    ensures r.result == Success(PyNone) && r.logged
  {
    EntryResult(Success(PyNone), true)
  }

  /** `_shutdown()`: does nothing and returns None. */
  function Shutdown(): (r: EntryResult)
    ensures r.result == Success(PyNone) && !r.logged
  {
    EntryResult(Success(PyNone), false)
  }
}
