# FLHook Python plugin bridge — a Dafny model

FLHook loads this plugin into a Freelancer server. The plugin embeds a Python
interpreter and forwards the hooked server events to a script package,
`freelancer.embedded`. This project models the bridge between the two sides
and proves properties of that model:

- **Hook gate and directive decoding** (`Bridge`). Two globals sit at the
  centre: `g_bEnabled` and the plugin `returncode`. Around them sit the
  lifecycle (`StartPython`, `StopPython`, `pyBasicCall`), the dispatch of one
  event to the script's `_callback`, and the decoding of the script's integer
  answer into a directive. The hook macros (`DEFAULT_CHECK`,
  `CHECK_AND_DISABLE`) and a representative set of hooks are included, among
  them all the hooks that read the directive after the call.
- **Live handles and their ordinal tables** (`Accessors`, `CppClasses`). A
  script sees a native `Vector`, `Quaternion`, `DamageList` or `CLIENT_INFO`
  through a `CppClass` wrapper. The wrapper maps an attribute name to its
  position in `_attr` and calls a native getter, setter or method with that
  ordinal. Native objects are Dafny classes and handles are references to
  them, so a write through one wrapper is seen through every other.
- **Snapshot records and converters** (`Registry`, `Converters`). Other
  structs are copied into named tuples. `CONSTS` is the registry of record
  shapes, `convertConst` and `convertClass` are the script-side constructors,
  and the `ToPython` family builds the snapshots, the list tuples and the
  live handles.
- **Host API wrappers** (`HostApi`). Each wrapper parses its arguments, calls
  one host function and turns a host error code into a pending
  `FLHook.Error`.
- **The shipped script library** (`ScriptLibrary`). It defines the error-code
  and return-code constants, the `logtypes` table, and the `_callback`,
  `_init` and `_shutdown` entry points.

The CPython API is represented by values:

- `PyValue` is a Python object;
- `Result` is "a value, or NULL with an exception set";
- `ParseTuple` is `PyArg_ParseTuple` for the units the core uses;
- `BuildTuple` is `Py_BuildValue`, which fails when an `N` argument is NULL.

The script itself and the host functions are parameters: `Bridge.Script` and
`HostApi.Host`. Native floats are opaque 32-bit patterns; they are only
copied, never computed with.

`Bridge` records every call it makes into the script. A method's contract can
therefore say that the script was not called.

In the decoding of a script's directive, where the intended design and the
code differ, the model follows the code. A
directive value outside 1–3 keeps the *current* return code rather than
selecting "continue". Every hook resets the code to the default just before
the call, so the two readings agree on every hook path. A script answer that
is not a number decodes to no directive: `PyInt_AsLong` yields -1, which is
read as 0xFFFFFFFF. The TypeError it raises is left pending, and nothing in
`pyCallback` clears it (Main.cpp:190-205). The next exception check then
reports it against a later event. This is usually the check after the next
dispatch's script call (Main.cpp:186), which then logs "Returned NULL" for
that event and discards that event's answer, so its code stays the default.
If a `CHECK_AND_DISABLE` runs first, the plugin is disabled instead. The model
does not carry this pending error (see "## Left out").

The library's `logtypes` table lists `HkCbIServerImpl_Update`, but the Update
hook sends `HkIServerImpl_Update`. As a result the per-tick event is logged;
`ScriptLibrary.UpdateEventIsLogged` states this.

Where the code has a bug listed under "## Findings", the model holds both
the code as written and the corrected behaviour. The class registry
(`Registry.CLASSES`) wires the corrected Vector and Quaternion setters in, so
`CppClasses.SetAttr`, `CppClasses.CallNativeSetter`, `CppClasses.SetThenGet`,
`CppClasses.VectorWithByName` and `CppClasses.QuaternionWithByName` describe
the corrected program. The same script-level write through the setters as
written is `CppClasses.SetFloatAsWritten`, with
`CppClasses.VectorFallthroughByName` and
`CppClasses.QuaternionFallthroughByName`.

## Model

| member | source | states |
|---|---|---|
| Native.ReturnCode.Value | python-minimal-libraries/freelancer/embedded/__init__.py:46-49 | the four directives have the values 0 to 3, and only the default has 0 |
| PyValues.ParseArg | headers.h:39-44 | "O" accepts anything unchanged; "I" and "H" accept ints and bools and keep their value modulo 2^32 or 2^16; "i" accepts only values in the int32 range; "f" accepts only floats |
| PyValues.ParseEach | headers.h:39-44 | a tuple parses exactly when every element parses under its unit; element i of the result is the parse of argument i; a failure is TypeError or OverflowError |
| PyValues.ParseTuple | headers.h:39-44 | a wrong argument count is a TypeError; otherwise the parse succeeds exactly when every element parses, and the result holds the parsed elements in order |
| PyValues.SingleArg | EmbeddedMethods.cpp:626-630 | a function argument that is not a tuple is a SystemError; otherwise it parses exactly when it is a one-element tuple whose element parses |
| PyValues.UIntRoundTrip | headers.h:41 | an unsigned 32-bit ordinal parses back to itself |
| PyValues.UIntMasks | headers.h:41 | "I" masks instead of range-checking: -1 reads as 0xFFFFFFFF, 2^32 as 0 and True as 1; a float is refused |
| PyValues.BuildTuple | Main.cpp:258 | building succeeds exactly when every element was built; the result has one element per input, in order |
| PyValues.BuildTupleOfValues | Main.cpp:293 | elements that were all built give the tuple of their values |
| PyValues.AsLong | Main.cpp:190 | an int or bool in the int32 range converts to itself; a value that is not a number gives the error sentinel -1 |
| PyValues.ToUInt | Main.cpp:190 | the `(uint)` cast keeps non-negative values and maps a negative value n to n + 2^32, which is above INT32_MAX |
| PyValues.FloatResultsTruncate | Main.cpp:190 | a float answer truncates toward zero (1.5 gives 1, -0.5 gives 0), and infinity gives -1 |
| PyValues.IndexOf | python-minimal-libraries/freelancer/embedded/classes.py:148 | `tuple.index`: None exactly when the name is absent; otherwise the first position holding it |
| PyValues.IndexOfDistinct | python-minimal-libraries/freelancer/embedded/classes.py:158 | in a duplicate-free tuple, looking up the element at position i yields i |
| Registry.ConvertConst | python-minimal-libraries/freelancer/embedded/classes.py:328-332 | an unknown shape is a KeyError; a known shape succeeds exactly when the arguments unpack to as many values as it has fields, giving the record of those values; a wrong count is a TypeError |
| Registry.ConvertConstPositional | python-minimal-libraries/freelancer/embedded/classes.py:279-314 | construction is positional: field i of the record holds argument i |
| Registry.ClientInfoShapeFirstHalf | python-minimal-libraries/freelancer/embedded/classes.py:305-306 | the first twelve CLIENT_INFO fields are duplicate-free |
| Registry.ClientInfoShapeSecondHalf | python-minimal-libraries/freelancer/embedded/classes.py:306-308 | the remaining CLIENT_INFO fields are duplicate-free |
| Registry.ClientInfoShapeDistinct | python-minimal-libraries/freelancer/embedded/classes.py:305-308 | the CLIENT_INFO field list is duplicate-free |
| Registry.MovementShapesDistinct | python-minimal-libraries/freelancer/embedded/classes.py:280-297 | the movement, weapon and collision shapes have no repeated field name |
| Registry.AccountShapesDistinct | python-minimal-libraries/freelancer/embedded/classes.py:284-309 | the account, character, trade and cargo shapes have no repeated field name |
| Registry.AllShapesDistinct | python-minimal-libraries/freelancer/embedded/classes.py:279-314 | every registered shape names each field once, so a field name selects one position |
| Registry.ConvertClass | python-minimal-libraries/freelancer/embedded/classes.py:334-338 | a registered class name wraps the pointer in an instance of that class; any other name is a KeyError |
| Registry.ClassesRegistered | python-minimal-libraries/freelancer/embedded/classes.py:316-323 | exactly Vector, Quaternion, DamageList and ClientInfo are registered; each carries its own name and a duplicate-free `_attr` |
| Registry.ClientInfoAttrRuns | python-minimal-libraries/freelancer/embedded/classes.py:263-273 | each run of twelve ClientInfo attribute names is duplicate-free |
| Registry.ClientInfoAttrFirstApart | python-minimal-libraries/freelancer/embedded/classes.py:263-273 | the first and second runs share no name |
| Registry.ClientInfoAttrLastApart | python-minimal-libraries/freelancer/embedded/classes.py:263-273 | the third run shares no name with the first two |
| Registry.ClientInfoAttrDistinct | python-minimal-libraries/freelancer/embedded/classes.py:263-273 | all 36 ClientInfo attribute names are distinct, so every name has one ordinal |
| Registry.ReservedNamesUnderscored | python-minimal-libraries/freelancer/embedded/classes.py:129-135 | every name `hasattr(CppClass, key)` finds starts with an underscore, except the metaclass method `mro`. These are the class's own names, `object`'s, and `type`'s |
| Registry.MroNotAnAttr | python-minimal-libraries/freelancer/embedded/classes.py:170-273 | no registered class lists `mro` as an attribute |
| Registry.UnreservedName | python-minimal-libraries/freelancer/embedded/classes.py:145 | a name that neither starts with an underscore nor is `mro` passes the "cannot be changed" test |
| Registry.AttrsNotUnderscored | python-minimal-libraries/freelancer/embedded/classes.py:170-273 | no attribute name of a registered class starts with an underscore |
| Registry.AttrsNotReserved | python-minimal-libraries/freelancer/embedded/classes.py:143-146 | no attribute name of a registered class is one of CppClass's own names, so the "cannot be changed" test never hides an attribute |
| Registry.LastDamageOrdinal | python-minimal-libraries/freelancer/embedded/classes.py:264 | `dmgLast` is ClientInfo attribute 3 |
| Converters.Bool | headers.h:29 | a native bool becomes the canonical True or False with the same truth value |
| Converters.ConstConverter | Converters.cpp:9-24 | NULL data gives NULL; otherwise the result is the script-side record exactly when `convertConst` succeeds |
| Converters.ClassConverter | Converters.cpp:30-45 | a registered class name gives a wrapper around a capsule of the pointer; any other name gives NULL |
| Converters.StringToPython | Converters.cpp:74-81 | a string becomes the script string with the same characters |
| Converters.VectorToPython | Converters.cpp:83-90 | a Vector snapshot is the record (x, y, z) |
| Converters.QuaternionToPython | Converters.cpp:96-104 | a Quaternion snapshot is the record (w, x, y, z) |
| Converters.SSPObjUpdateInfoToPython | Converters.cpp:111-123 | the snapshot nests snapshots for the direction and the position, with the other fields in declared order |
| Converters.SSPObjCollisionInfoToPython | Converters.cpp:125-135 | the five fields in declared order |
| Converters.SStartupInfoToPython | Converters.cpp:138-145 | None for the unknown field, then the player limit |
| Converters.SLoginInfoToPython | Converters.cpp:148-154 | the account name as a string |
| Converters.SCreateCharacterInfoToPython | Converters.cpp:157-169 | as written, the conversion always fails: four values for a six-field shape |
| Converters.SCreateCharacterInfoToPythonFixed | Converters.cpp:157-169 | with six values, the snapshot holds every field of the shape in order |
| Converters.XFireWeaponInfoToPython | Converters.cpp:172-184 | the direction is nested as a Vector snapshot, with the other fields in declared order |
| Converters.XActivateEquipToPython | Converters.cpp:187-195 | the ids, then the flag as a canonical bool |
| Converters.XActivateCruiseToPython | Converters.cpp:198-205 | the ship, then the flag as a canonical bool |
| Converters.XActivateThrustersToPython | Converters.cpp:208-215 | the ship, then the flag as a canonical bool |
| Converters.XSetTargetToPython | Converters.cpp:218-227 | the four ids in declared order |
| Converters.XGoTradelaneToPython | Converters.cpp:230-238 | the ship and both tradelane objects in order |
| Converters.XJettisonCargoToPython | Converters.cpp:241-249 | ship, slot and count in order |
| Converters.XSetManeuverToPython | Converters.cpp:252-260 | both ships and the flag in order |
| Converters.SGFGoodSellInfoToPython | Converters.cpp:263-271 | the three fields in order, the count signed |
| Converters.SGFGoodBuyInfoToPython | Converters.cpp:274-283 | the four fields in order |
| Converters.SSPMunitionCollisionInfoToPython | Converters.cpp:286-295 | the four fields in order |
| Converters.EquipDescToPython | Converters.cpp:298-312 | the eight fields in order, the two flags as canonical bools |
| Converters.CharacterIdToPython | Converters.cpp:315-321 | the character file name |
| Converters.CargoInfoToPython | Converters.cpp:324-336 | the six fields in order, the count signed and the flags canonical |
| Converters.MoneyFixToPython | Converters.cpp:339-346 | the name and the signed amount |
| Converters.IgnoreInfoToPython | Converters.cpp:349-356 | the name and the flags |
| Converters.ResolveIpToPython | Converters.cpp:359-368 | the client, the connection count, the address and the host name |
| Converters.HkPlayerInfoToPython | Converters.cpp:371-385 | the eight fields in order |
| Converters.DamageEntryToPython | Converters.cpp:388-396 | sub-object, health and fate in order |
| Converters.SSPUseItemToPython | Converters.cpp:473-481 | object, hardpoint and quantity in order |
| Converters.SnapshotField | python-minimal-libraries/freelancer/embedded/classes.py:279-314 | in any snapshot, the field named by position i holds value i |
| Converters.ActivateEquipFlagCanonical | Converters.cpp:187-195 | `bActivate` reads back as the canonical bool of the native flag |
| Converters.ActivateCruiseFlagCanonical | Converters.cpp:198-205 | `bActivate` reads back as the canonical bool of the native flag |
| Converters.ActivateThrustersFlagCanonical | Converters.cpp:208-215 | `bActivate` reads back as the canonical bool of the native flag |
| Converters.EquipDescFlagsCanonical | Converters.cpp:298-312 | `bMounted` and `bMission` read back as canonical bools |
| Converters.CargoFlagsCanonical | Converters.cpp:324-336 | `bMission` and `bMounted` read back as canonical bools |
| Converters.CargoCountKeepsSign | Converters.cpp:324-336 | a negative cargo count reads back negative |
| Converters.GoodSellCountKeepsSign | Converters.cpp:263-271 | a negative sell count reads back negative |
| Converters.MoneyFixAmountKeepsSign | Converters.cpp:339-346 | a negative money amount reads back negative |
| Converters.CargoTuple | Converters.cpp:399-411 | one element per cargo entry, element i being the snapshot of entry i |
| Converters.UIntTuple | Converters.cpp:414-426 | one element per id, element i being id i |
| Converters.DamageEntriesTuple | Converters.cpp:429-441 | one element per damage entry, element i being the snapshot of entry i |
| Converters.CargoListToPython | Converters.cpp:399-411 | the filling loop builds exactly the cargo tuple: same length, same order |
| Converters.UIntListToPython | Converters.cpp:414-426 | the filling loop builds exactly the id tuple |
| Converters.DamageEntryListToPython | Converters.cpp:429-441 | the filling loop builds exactly the damage-entry tuple |
| Converters.VectorHandle | Converters.cpp:91-94 | a Vector pointer becomes a live Vector wrapper around that very object |
| Converters.QuaternionHandle | Converters.cpp:105-108 | a Quaternion pointer becomes a live wrapper around that object |
| Converters.DamageListHandle | Converters.cpp:445-448 | a DamageList pointer becomes a live wrapper around that object |
| Converters.ClientInfoHandle | Converters.cpp:451-454 | a CLIENT_INFO pointer becomes a live wrapper around that object |
| Converters.HandlesAreNotSnapshots | Converters.cpp:91-94 | a live handle is never a snapshot record and cannot be passed to `convertConst` as arguments |
| Accessors.GetCapsuleData | headers.h:39-44 | an accessor proceeds exactly when its arguments are three with an integer ordinal; the ordinal is taken modulo 2^32 |
| Accessors.VectorOrdinal | EmbeddedMethods.cpp:490-502 | ordinals 0, 1, 2 read the member of that name as a float; any other ordinal reads None |
| Accessors.VectorGetAttr | EmbeddedMethods.cpp:490-502 | fails only when the arguments do not parse; otherwise it reads the live object at the ordinal |
| Accessors.VectorWith | EmbeddedMethods.cpp:503-518 | the isolated write: ordinal k reads the new value afterwards, every other ordinal reads as before |
| Accessors.VectorFallthrough | EmbeddedMethods.cpp:503-518 | the switch as written: ordinal k and every later member take the new value |
| Accessors.VectorFallthroughClobbers | EmbeddedMethods.cpp:503-518 | setting x to 1.0 on the zero vector as written gives (1, 1, 1), which differs from the isolated write |
| Accessors.VectorFallthroughAgreesOnLast | EmbeddedMethods.cpp:503-518 | as written, only a write to z is correct |
| Accessors.FloatArgument | EmbeddedMethods.cpp:503-518 | the setter's value must be a single float |
| Accessors.VectorSetAttrAsWritten | EmbeddedMethods.cpp:503-518 | a failed parse writes nothing; a success returns None and leaves the object as the fallthrough switch leaves it |
| Accessors.VectorSetAttr | EmbeddedMethods.cpp:503-518 | a failed parse writes nothing; a success returns None and writes exactly the member at the ordinal |
| Accessors.QuaternionOrdinal | EmbeddedMethods.cpp:519-533 | ordinals 0–3 read w, x, y, z as floats; others read None |
| Accessors.QuaternionGetAttr | EmbeddedMethods.cpp:519-533 | fails only when the arguments do not parse; otherwise it reads the live object at the ordinal |
| Accessors.QuaternionWith | EmbeddedMethods.cpp:534-551 | the isolated write of one member; all other ordinals unchanged |
| Accessors.QuaternionFallthrough | EmbeddedMethods.cpp:534-551 | as written: the member at the ordinal and every later one take the new value |
| Accessors.QuaternionFallthroughClobbers | EmbeddedMethods.cpp:534-551 | setting x on the zero quaternion as written also overwrites y and z |
| Accessors.QuaternionSetAttrAsWritten | EmbeddedMethods.cpp:534-551 | a failed parse writes nothing; a success leaves the object as the fallthrough switch leaves it |
| Accessors.QuaternionSetAttr | EmbeddedMethods.cpp:534-551 | a failed parse writes nothing; a success writes exactly the member at the ordinal |
| Accessors.DamageListOrdinal | EmbeddedMethods.cpp:659-678 | ordinals 0–5 read the attribute of that name (the flag as a canonical bool); others read None |
| Accessors.DamageListGetAttr | EmbeddedMethods.cpp:659-678 | fails only when the arguments do not parse; otherwise it reads the live object at the ordinal |
| Accessors.DamageListQuery | EmbeddedMethods.cpp:616-658 | the query cases never change the object; only case 3 can fail; cases 1, 8, 9 and any other number return None |
| Accessors.IdArgument | EmbeddedMethods.cpp:643-646 | the id must be a single integer, taken modulo 2^32 |
| Accessors.DamageListMethodAsWritten | EmbeddedMethods.cpp:616-658 | cases 10 and 11 succeed exactly when the id parses, and both write the inflictor id; a failure writes nothing |
| Accessors.DamageListMethod | EmbeddedMethods.cpp:616-658 | only 10 and 11 write: 10 the inflictor id, 11 the owner player; a failure writes nothing and comes only from cases 3, 10 and 11 |
| Accessors.InflictorRoundTrip | EmbeddedMethods.cpp:631-654 | after setting the inflictor id or owner to n, the matching getter returns n |
| Accessors.InflictorOwnerLostAsWritten | EmbeddedMethods.cpp:649-654 | as written, setting the owner player to 7 leaves the owner at 0 and sets the inflictor id to 7 |
| Accessors.DamageListFunctionsAsWritten | EmbeddedMethods.cpp:616-658 | on the live object: an unparsable call fails and writes nothing; otherwise the result and the new value are the as-written table's |
| Accessors.DamageListFunctions | EmbeddedMethods.cpp:616-658 | the same with case 11 writing the owner player |
| Accessors.ClientInfoLow | EmbeddedMethods.cpp:679-758 | ordinals 0–11 give a value of the kind the attribute's name prefix announces |
| Accessors.ClientInfoMid | EmbeddedMethods.cpp:679-758 | ordinals 12–23 likewise |
| Accessors.ClientInfoHigh | EmbeddedMethods.cpp:679-758 | ordinals 24–35 likewise |
| Accessors.ClientInfoOrdinal | EmbeddedMethods.cpp:679-758 | each ordinal's value has its name's kind; exactly ordinals 4, 18–23 and 35 and those out of range give None; ordinal 3 is a live DamageList wrapper around `dmgLast` |
| Accessors.ClientInfoGetAttr | EmbeddedMethods.cpp:679-758 | fails only when the arguments do not parse; otherwise it reads the live record at the ordinal |
| CppClasses.ClassFor | python-minimal-libraries/freelancer/embedded/classes.py:316-323 | every kind of native object has a registered wrapper class |
| CppClasses.HandlesWrapped | Converters.cpp:30-45 | every handle the converters build is a well-formed wrapper of its object's class |
| CppClasses.AccessorArgs | python-minimal-libraries/freelancer/embedded/classes.py:155-162 | the wrapper's call passes its capsule, the ordinal and the value tuple, which the native side accepts as that ordinal |
| CppClasses.ClassDef | python-minimal-libraries/freelancer/embedded/classes.py:170-274 | each object kind's class has the `_attr`, getter and setter registered for it |
| CppClasses.CallGetter | python-minimal-libraries/freelancer/embedded/classes.py:159-160 | the native getter answers exactly when its arguments parse, with the live read at the ordinal |
| CppClasses.GetAttr | python-minimal-libraries/freelancer/embedded/classes.py:155-162 | a name outside `_attr` raises "no attribute" for that name; any other name reads the live object at the name's index |
| CppClasses.ReadFloatByName | python-minimal-libraries/freelancer/embedded/classes.py:170-181 | reading x, y, z (or w) by name yields that member of the live Vector or Quaternion |
| CppClasses.ReadDamageListByName | python-minimal-libraries/freelancer/embedded/classes.py:206-211 | reading a DamageList attribute by name yields the field of that name |
| CppClasses.ReadClientInfoByName | python-minimal-libraries/freelancer/embedded/classes.py:261-274 | reading a ClientInfo attribute by name yields a value of the kind its name announces |
| CppClasses.ReadLastDamage | EmbeddedMethods.cpp:689-690 | `dmgLast` reads as a live wrapper around the record's last-damage list |
| CppClasses.VectorWithByName | python-minimal-libraries/freelancer/embedded/classes.py:143-149 | corrected: setting a Vector member by name changes that member and no other |
| CppClasses.QuaternionWithByName | python-minimal-libraries/freelancer/embedded/classes.py:143-149 | corrected: setting a Quaternion member by name changes that member and no other |
| CppClasses.CallNativeSetter | python-minimal-libraries/freelancer/embedded/classes.py:147-153 | corrected (isolated native setter): a value the native setter refuses becomes the "no 'set' method" AttributeError and writes nothing; an accepted float writes that member only |
| CppClasses.SetAttr | python-minimal-libraries/freelancer/embedded/classes.py:143-153 | corrected (isolated native setter): the names `hasattr(CppClass, key)` finds, including the metaclass names such as `mro`, cannot be changed; unknown names raise "no attribute"; DamageList writes are dropped; ClientInfo has no setter; Vector and Quaternion accept exactly floats and write the named member |
| CppClasses.SetThenGet | python-minimal-libraries/freelancer/embedded/classes.py:143-162 | corrected (isolated native setter): reading a name back after setting it yields the value written, and every other name reads as before |
| CppClasses.SetFloatAsWritten | python-minimal-libraries/freelancer/embedded/classes.py:143-149 | as written: `v.<key> = f` returns None and leaves the object as the break-less switch leaves it, from the name's position on |
| CppClasses.VectorFallthroughByName | EmbeddedMethods.cpp:503-518 | as written: a by-name Vector write sets every member named at or after the key, and keeps the ones before it |
| CppClasses.QuaternionFallthroughByName | EmbeddedMethods.cpp:534-551 | as written: a by-name Quaternion write sets every member named at or after the key, and keeps the ones before it |
| CppClasses.DelAttr | python-minimal-libraries/freelancer/embedded/classes.py:164-166 | deleting any attribute raises, naming the wrapper's class |
| CppClasses.CallArgs | python-minimal-libraries/freelancer/embedded/classes.py:213-259 | `add_damage_entry` passes three arguments; every other method passes one |
| CppClasses.MethodNumberAsWritten | python-minimal-libraries/freelancer/embedded/classes.py:213-259 | the twelve methods send the numbers 1 to 12 |
| CppClasses.MethodNumber | EmbeddedMethods.cpp:619-657 | the native table's number for each method is one less than what the wrapper sends |
| CppClasses.QueriesAnswerTheirName | EmbeddedMethods.cpp:620-638 | with the native numbers, each query method returns its own field |
| CppClasses.HitPointsQuery | EmbeddedMethods.cpp:626-630 | `get_hit_pts_left(subobj)` returns the host's hit points for that sub-object |
| CppClasses.SettersWriteTheirName | EmbeddedMethods.cpp:643-654 | with the native numbers, each setter writes its own field |
| CppClasses.GetCauseFailsAsWritten | python-minimal-libraries/freelancer/embedded/classes.py:221-223 | as written, `get_cause()` fails with a TypeError |
| CppClasses.GetInflictorIdAsWritten | python-minimal-libraries/freelancer/embedded/classes.py:229-231 | as written, `get_inflictor_id()` returns the owner player |
| CppClasses.SetDestroyedAsWritten | python-minimal-libraries/freelancer/embedded/classes.py:249-251 | as written, `set_destroyed(True)` sets the inflictor id to 1 |
| CppClasses.CallDamageListMethodAsWritten | python-minimal-libraries/freelancer/embedded/classes.py:213-259 | a method call on the live object has the as-written table's result and effect |
| CppClasses.CallDamageListMethod | python-minimal-libraries/freelancer/embedded/classes.py:213-259 | a method call with the native numbers has the corrected table's result and effect |
| CppClasses.InflictorThroughLastDamage | EmbeddedMethods.cpp:689-690 | an inflictor id set through one `dmgLast` wrapper is read back through a second one |
| HostApi.RaisePyException | Main.cpp:45-52 | an exception is raised exactly when the code is not HKE_OK, and it carries the code |
| HostApi.Answer | EmbeddedMethods.cpp:40-42 | a wrapper fails exactly when the host code is not HKE_OK, with that code; otherwise it returns its value |
| HostApi.HkMsg | EmbeddedMethods.cpp:35-43 | the host is called exactly when there are two arguments, with their text; the answer is None or the host's error |
| HostApi.HkGetCash | EmbeddedMethods.cpp:178-187 | the host is called exactly when there is one argument; on success the balance comes back signed |
| HostApi.HkEnumCargo | EmbeddedMethods.cpp:244-254 | the host is called exactly when there is one argument; on success element i is the snapshot of cargo entry i |
| HostApi.RenameArgs | EmbeddedMethods.cpp:279-280 | two objects and an int32 flag |
| HostApi.HkRenameAsWritten | EmbeddedMethods.cpp:277-286 | as written, the host is never asked to rename, and well-formed arguments give NULL with no exception set |
| HostApi.HkRename | EmbeddedMethods.cpp:277-286 | the host renames exactly when the arguments parse, with a non-zero flag meaning ban; a parse failure calls nothing |
| HostApi.RenameRefusedAsWritten | EmbeddedMethods.cpp:280-281 | a well-formed rename the host would accept fails as written and succeeds once corrected |
| ScriptLibrary.ErrorCode | python-minimal-libraries/freelancer/embedded/__init__.py:11-41 | a name has a code exactly when the library defines it, and the code is the name's position |
| ScriptLibrary.LowErrorNamesDistinct | python-minimal-libraries/freelancer/embedded/__init__.py:11-26 | the names of codes 0 to 15 are distinct |
| ScriptLibrary.HighErrorNamesDistinct | python-minimal-libraries/freelancer/embedded/__init__.py:27-41 | the names of codes 16 to 30 are distinct |
| ScriptLibrary.ErrorNamesApart | python-minimal-libraries/freelancer/embedded/__init__.py:11-41 | no name of a code from 16 up repeats a lower code's name |
| ScriptLibrary.ErrorCodesDistinct | python-minimal-libraries/freelancer/embedded/__init__.py:11-41 | 31 names; HKE_OK is the host's 0; different names have different codes |
| ScriptLibrary.ReturnCodesAgree | python-minimal-libraries/freelancer/embedded/__init__.py:46-49 | the library's four return codes carry the values the bridge decodes |
| ScriptLibrary.ShouldLog | python-minimal-libraries/freelancer/embedded/__init__.py:132 | an unlisted event is logged; a listed one follows its entry |
| ScriptLibrary.LoggedIffUnlisted | python-minimal-libraries/freelancer/embedded/__init__.py:82-105 | every entry says False, so an event is logged exactly when it is not listed |
| ScriptLibrary.UpdateEventIsLogged | python-minimal-libraries/freelancer/embedded/__init__.py:83 | the name the Update hook sends is logged; only the listed variant is not |
| ScriptLibrary.Callback | python-minimal-libraries/freelancer/embedded/__init__.py:127-135 | every event gets DEFAULT_RETURNCODE, and it is logged exactly when unlisted |
| ScriptLibrary.Init | python-minimal-libraries/freelancer/embedded/__init__.py:113-117 | returns None and writes its line |
| ScriptLibrary.Shutdown | python-minimal-libraries/freelancer/embedded/__init__.py:120-124 | returns None and writes nothing |
| Bridge.Decode | Main.cpp:199-204 | only 1, 2 and 3 name a directive, and the directive named has that value |
| Bridge.DecodeInvertsValue | Main.cpp:199-204 | decoding a non-default directive's value gives it back; the default's value decodes to nothing |
| Bridge.ResultCode | Main.cpp:172-192 | a raising script gives DEFAULT_RETURNCODE; a non-negative answer is itself; a negative one lands above INT32_MAX; a non-number gives 0xFFFFFFFF |
| Bridge.Directive | Main.cpp:199-205 | a raising script keeps the current code; a changed code equals the decoded answer |
| Bridge.DirectiveTable | Main.cpp:199-204 | answers 1, 2, 3 select the three directives; 0, values from 4 up and negatives keep the current code |
| Bridge.HookDirective | Main.cpp:161-206 | after the hook's reset, NULL data and a raising script both leave the default |
| Bridge.Dispatched | Main.cpp:174-185 | a dispatch calls the script at most once, and not at all for NULL data |
| Bridge.LibraryNeverRedirects | python-minimal-libraries/freelancer/embedded/__init__.py:127-135 | with the shipped library, every hook keeps the default directive |
| Bridge.LibraryStarts | Main.cpp:115-131 | the shipped library passes every start-up step |
| Bridge.Bridge.constructor | Main.cpp:30-33 | before start-up: disabled, the default code, no module, no calls |
| Bridge.Bridge.DefaultCheck | headers.h:32-36 | the code is reset whether or not the plugin is enabled; the hook goes on exactly when enabled |
| Bridge.Bridge.CheckAndDisable | headers.h:52-57 | a pending exception disables the plugin and stops the caller; otherwise nothing changes |
| Bridge.Bridge.CheckAndDisableNoRet | headers.h:59-63 | a pending exception disables the plugin, and the caller goes on |
| Bridge.Bridge.PyBasicCall | Main.cpp:76-94 | true exactly when the module is loaded, the entry point exists and its call succeeds; the call is made only in the first two cases |
| Bridge.Bridge.StartPython | Main.cpp:99-131 | enabled exactly when import, the three lookups and `_init` all succeed; `_init` is called only when every earlier step succeeded |
| Bridge.Bridge.StopPython | Main.cpp:138-155 | `_shutdown` is called only when enabled, and its failure changes nothing |
| Bridge.Bridge.PyCallback | Main.cpp:161-206 | a lost module disables the plugin without a call; NULL data changes nothing; otherwise one call, and the code becomes the decoded answer or stays |
| Bridge.Bridge.Hook | headers.h:32-33 | a disabled hook only resets the code; an enabled one dispatches the data and leaves the script's directive |
| Bridge.Bridge.Update | Main.cpp:233-240 | returns 0 and always ends with the default code, whatever the script answered |
| Bridge.Bridge.SubmitChat | Main.cpp:241-259 | a message to 0x10004 is never dispatched; others carry sender, text, recipient and flag |
| Bridge.Bridge.FireWeapon | Main.cpp:290-294 | dispatches the client id and the weapon snapshot |
| Bridge.Bridge.OnConnect | Main.cpp:370-374 | dispatches the bare client id, not a one-element tuple |
| Bridge.Bridge.CreateNewCharacterAsWritten | Main.cpp:560-564 | as written, the event never reaches the script and the code stays default |
| Bridge.Bridge.CreateNewCharacter | Main.cpp:560-564 | with a complete snapshot, the event is dispatched |
| Bridge.Bridge.AddDmgEntry | Main.cpp:1022-1026 | dispatches a live DamageList wrapper with the entry's values |
| Bridge.Bridge.AllowPlayerDamageAsWritten | Main.cpp:1038-1046 | as written, damage is allowed exactly when the plugin is disabled |
| Bridge.Bridge.AllowPlayerDamage | Main.cpp:1038-1046 | damage is refused only when the script changed the directive; the code is reset either way |
| Bridge.Bridge.UserCmdProcess | Main.cpp:1128-1135 | the command is handled exactly when enabled and the script changed the directive |
| Bridge.Bridge.ExecuteCommandString | Main.cpp:1141-1148 | the command is handled exactly when enabled and the script changed the directive |
| Bridge.LibrarySession | Main.cpp:99-131 | with the shipped library, start-up enables the plugin and calls `_init`, and a user command is then not handled |

## Left out

- Reference counting is not modelled, including the double `Py_XDECREF(pModule)` in `StopPython`. Neither is interpreter start and finalisation, nor the `catch(...)` blocks. They are memory management and foreign runtime behaviour.
- String encodings (`wstos`, `stows`, `pytows`) and the chat-buffer text extraction are foreign. `HostApi.Host.text` stands for `pytows`, and `SubmitChat` takes the extracted text as a parameter.
- Floating-point values are 32-bit patterns that are only copied. The script side's doubles are not distinguished from them. The "f" unit accepts only floats, whereas the interpreter also accepts ints.
- Bridge.ResultCode: the TypeError that `PyInt_AsLong` leaves pending after a non-number answer is not modelled; only the -1 it returns is. A non-number answer therefore leaves no trace on the bridge state in the model.
- Bridge.Bridge.PyCallback: because the pending error is not carried, the model does not capture its effect on later events. In the source the next `CheckPyException` reports it. If that is the check after the next dispatch's script call, that call is logged as "Returned NULL" and its answer is discarded, so the code stays the default even when the script asked for a directive. If a `CHECK_AND_DISABLE` runs first, the plugin is disabled. Every dispatch in the model is decided by its own script call.
- Logging (`ConPrint`, `AddLog`, `ERRMSG`, `logger`) is I/O. The script library's entry points record only whether a line is written.
- The script's own state is not modelled. A callback is a fixed function of the event and the data, so writes a script makes through handles during a callback are not modelled either.
- Passing a capsule of the wrong object kind to an accessor is undefined behaviour in the native code. The model's accessors require a capsule of their own kind.
- `DamageList.damageentries` (getter ordinal 1) hands the raw list to `Py_BuildValue`, which is undefined behaviour. The model returns the converted tuple of entries.
- `SSPObjUpdateInfo.vDir` is taken to be a Quaternion; the struct's declaring header is not part of this model.
- `CppClass.__getattr__` is reached only for names that normal attribute lookup does not find. Class attributes such as `_cname` are therefore not modelled as going through it.
- The base `CppClass` branch with no `_get_method` (a None result) is never reached by the registered classes. Every class the model can wrap has a getter.
- HostApi.HkRenameAsWritten: when parsing fails, the code goes on to call the host with uninitialised arguments; the model stops at the parse error.
- `pyBasicCall`'s `Py_XDECREF` of an uninitialised result after a failed lookup is not modelled.
- Bridge: only the hooks listed in the table are modelled. The other ~90 hook bodies follow the same `DEFAULT_CHECK`-then-dispatch shape (`Bridge.Bridge.Hook`) with other data. `DllMain` and the hook registration list are loader wiring.
- HostApi: only the wrappers listed in the table are modelled. The other host wrappers follow the same parse, call and raise shape, and the host functions themselves are foreign.
- The commented-out `SSPObjUpdateInfo` and `SSPObjCollisionInfo` accessors and the unused `ServerMethods` table are dead code.
- Accessors.ClientInfoOrdinal: the contract states the kind of each ordinal's value, which ordinals give None, and the `dmgLast` wrapper exactly. It does not state the field read at every ordinal; the body reads one field per case.
- Accessors.ClientInfoLow, Accessors.ClientInfoMid and Accessors.ClientInfoHigh state the kind of each value only, for the same reason.
- CppClasses.ReadClientInfoByName states the kind of the value read by name, not the field.
- Converters.SLoginInfoToPython: the account name reaches the "s" unit of `Py_BuildValue` as a `std::string` object, with no `.c_str()` (Converters.cpp:152). Passing a class object through `...` is undefined behaviour, and "s" then reads the object's first word as a `char*`. The model assumes the text is delivered, as it would be with `.c_str()` (the way Converters.cpp:79 passes it).
- Converters.SCreateCharacterInfoToPythonFixed: the corrected snapshot likewise assumes the character name reaches "s" as text, although Converters.cpp:162 passes the `std::string` object.
- Converters.MoneyFixToPython: the same assumption for the character name passed as a `std::string` object at Converters.cpp:343.
- Converters.IgnoreInfoToPython: the same assumption for both strings passed as `std::string` objects at Converters.cpp:353-354.
- Converters.ResolveIpToPython: the same assumption for the address and host name passed as `std::string` objects at Converters.cpp:365-366.
- Converters.HkPlayerInfoToPython: the same assumption for the five string fields passed as `std::string` objects at Converters.cpp:376-382.
- HostApi.RaisePyException: the exception's value also carries the error text, passed to "s" as a `std::string` object (Main.cpp:48). The model keeps only the code.
- PyValues.AsLong: the contract covers ints in the int32 range and non-numbers. Floats are truncated by the body; `FloatResultsTruncate` gives three cases. An int outside the int32 range gives -1 in the body.

## Findings

| source | as written | input that shows it | evidently intended | confidence | as-written member | corrected member |
|---|---|---|---|---|---|---|
| EmbeddedMethods.cpp:503-518 | the Vector setter's cases have no `break`, so a write at ordinal k also lands on every later member | `v.x = 1.0` on (0, 0, 0) leaves (1, 1, 1) | each ordinal writes its own member only | high; not executed | Accessors.VectorFallthroughClobbers, CppClasses.SetFloatAsWritten, CppClasses.VectorFallthroughByName | Accessors.VectorSetAttr, CppClasses.SetAttr, CppClasses.CallNativeSetter, CppClasses.SetThenGet, CppClasses.VectorWithByName |
| EmbeddedMethods.cpp:534-551 | the Quaternion setter falls through in the same way | `q.x = 1.0` on (0, 0, 0, 0) leaves (0, 1, 1, 1) | each ordinal writes its own member only | high; not executed | Accessors.QuaternionFallthroughClobbers, CppClasses.SetFloatAsWritten, CppClasses.QuaternionFallthroughByName | Accessors.QuaternionSetAttr, CppClasses.SetAttr, CppClasses.CallNativeSetter, CppClasses.SetThenGet, CppClasses.QuaternionWithByName |
| Converters.cpp:157-169 | the SCreateCharacterInfo snapshot passes four values to a six-field shape, so `convertConst` raises and the hook data is NULL | any character creation: the CreateNewCharacter event never reaches the script | pass all six fields | high; not executed | Bridge.Bridge.CreateNewCharacterAsWritten | Bridge.Bridge.CreateNewCharacter |
| EmbeddedMethods.cpp:277-286 | the parse test lacks `!`: parsed arguments return NULL with no exception set, and the host is never called | `HkRename("a", "b", 1)` | rename when the arguments parse, as the other wrappers do | high; not executed | HostApi.RenameRefusedAsWritten | HostApi.HkRename |
| python-minimal-libraries/freelancer/embedded/classes.py:213-259 | the DamageList methods send 1–12, while the native cases are 0–11, so every method runs its neighbour's case | `set_destroyed(True)` sets the inflictor id to 1; `get_cause()` raises a TypeError | send 0–11 | high; not executed | CppClasses.SetDestroyedAsWritten | CppClasses.QueriesAnswerTheirName |
| EmbeddedMethods.cpp:649-654 | case 11 (`set_inflictor_owner_player`) calls `set_inflictor_id` | setting the owner player to 7 leaves the owner at 0 and the inflictor id at 7 | set the owner player | high; not executed | Accessors.InflictorOwnerLostAsWritten | Accessors.InflictorRoundTrip |
| Main.cpp:1038-1046 | the `return false` after the unbraced `if` always runs | any enabled call, including the shipped callback answering 0: damage is refused | refuse only when the script changed the directive | high; not executed | Bridge.Bridge.AllowPlayerDamageAsWritten | Bridge.Bridge.AllowPlayerDamage |
