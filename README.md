# Power Switch Pro MCP server — verified model of the tool layer

The repository exposes a Digital Loggers Power Switch Pro as a set of MCP tools.
It has two transports: a standard-I/O server (`server.py`, one `call_tool`
dispatching on the tool name) and an HTTP server (`http_server.py`, one function per tool).
Both transports share three pieces of in-repo logic, and this project models them:

- **The lazy device accessor `get_device`.** It reads the host, username, password and
  HTTPS flag from the environment, rejects a missing host or password, and
  constructs the client handle at most once. A configuration error or a raising
  constructor caches nothing, so the next call tries again.
- **The tool bodies.** Each tool issues a fixed sequence of calls on the device
  handle and stops at the first one that raises. The bulk operation loops over the given
  outlet ids in order, or delegates to the device's own bulk call.
- **Result shaping.** Outlet numbers are shown 1-based, states as `ON`/`OFF`, and
  status texts are chosen by a flag. AutoPing entries are listed with defaults for
  missing keys, and raised errors become text or an `{"error": ...}` record.

Modules, in dependency order:

| file | module | contents |
|---|---|---|
| wrappers.dfy | Wrappers | `Option`, `Result` |
| text.dfy | Text | `str(int)`, `repr` of an int list, `join`/`split`, each with its parser and round-trip lemma |
| config.dfy | Config | the environment as a string map; `ReadSettings`, the validation and defaults of `get_device` |
| device.dfy | PowerSwitch | the client object as a class with an append-only call log; answers and faults come from a `Library` value |
| format.dfy | Format | every message, record and listing the tools return |
| catalog.dfy | Catalog | each tool as a plan of calls plus a payload (`PlanOf`, `PayloadOf`, `Perform`); the accessor's semantics (`Serve`) |
| accessor.dfy | Access | `get_device` and the `_device` global, as a class |
| tools.dfy | Tools | the tool bodies as imperative methods on the device, each proved equal to `Catalog.Perform` |
| stdio_server.dfy | StdioServer | `call_tool`: name dispatch, argument lookup, rendering |
| http_server.dfy | HttpServer | the seventeen HTTP tool functions and their error mapping |

The device is modelled only from the outside. Every interaction is one `Call`: a
mutation (`On`, `Off`, `Cycle`, `Bulk`, `SetName`, the AutoPing mutators) or a query.
Each call is appended to `Device.log`, including one that raises. What a
query answers, and whether any call raises, is a function of the log so far,
supplied as a `Library`. The model says nothing about what the device does
with an outlet.

## Model

| member | source | states |
|---|---|---|
| Config.ReadSettings | src/power_switch_pro_mcp/server.py:33-42 | fails, with the fixed message, exactly when the host or the password is unset or empty; the host and password are taken from the environment; the username defaults to "admin" |
| Config.UseHttpsIff | src/power_switch_pro_mcp/server.py:37 | the HTTPS flag holds iff the variable is set and spells "true" in any mix of cases; it is unset by default |
| Config.LowerIsTrueIff | src/power_switch_pro_mcp/server.py:37 | lower-casing a value gives "true" exactly for the spellings of "true" |
| Access.DeviceAccessor.GetDevice | src/power_switch_pro_mcp/server.py:30-47 | a cached handle is returned unchanged; with no handle, invalid settings give the `ValueError` and leave no handle; a raising constructor gives its error and leaves no handle; otherwise a fresh handle with those settings is cached and counted as one construction |
| Access.GetDeviceTwice | src/power_switch_pro_mcp/http_server.py:25-42 | a second call returns the first call's handle whatever the environment then says; a failed first call, by configuration or by a raising constructor, does not prevent a later construction |
| PowerSwitch.Device.Act | src/power_switch_pro_mcp/server.py:345 | a mutator call is appended to the log and raises exactly what the library raises for it |
| PowerSwitch.RunCalls | src/power_switch_pro_mcp/server.py:340-515 | running a plan issues a prefix of it, the whole plan when nothing raised, at least one call when something did |
| PowerSwitch.RunStopsAtFirstFault | src/power_switch_pro_mcp/server.py:340-515 | a run that raised stopped at the first raising call, and no earlier call raised |
| PowerSwitch.RunCleanNeverRaised | src/power_switch_pro_mcp/server.py:340-515 | in a run that did not raise, no call of the plan raised |
| PowerSwitch.RunAppend | src/power_switch_pro_mcp/server.py:413-420 | running two plans one after the other is running their concatenation |
| Catalog.PerformStopsAtFirstFault | src/power_switch_pro_mcp/server.py:340-515 | every tool issues a prefix of its plan; it succeeds iff the whole plan ran without a raise, and then returns the tool's payload; on failure its last call raised the returned error and none before it did |
| Catalog.OutletActionsIssueOneCall | src/power_switch_pro_mcp/server.py:343-356 | on/off/cycle issue exactly the one matching call on the given outlet and report "Outlet n+1 turned ON", "turned OFF" or "power cycled" |
| Catalog.BulkExplicitInOrder | src/power_switch_pro_mcp/server.py:411-421 | with a known action, the plan is one action per listed id, in list order |
| Catalog.BulkExplicitOutcome | src/power_switch_pro_mcp/http_server.py:249-259 | a successful explicit-list bulk operation made one matching call per id in list order, and its message parses back to the ids plus one |
| Catalog.BulkUnknownActionNoCalls | src/power_switch_pro_mcp/http_server.py:251-259 | an action other than on/off/cycle makes no call, yet reports the operation as performed on the listed outlets |
| Catalog.BulkAllUnlockedOneCall | src/power_switch_pro_mcp/server.py:422-425 | without ids, exactly one `bulk_operation(locked=False, action)` call and no per-outlet call; success iff that call did not raise |
| Catalog.BulkLoopStep | src/power_switch_pro_mcp/http_server.py:251-258 | one loop iteration extends the plan by that id's action; a raise there ends the whole operation with that run |
| Catalog.ExplicitPlanAppend | src/power_switch_pro_mcp/server.py:413-420 | the explicit-list plan of a concatenation of id lists is the concatenation of their plans |
| Catalog.UnknownActionPlanEmpty | src/power_switch_pro_mcp/server.py:415-420 | an unknown action contributes no call for any id |
| Catalog.ReportsOnlyQuery | src/power_switch_pro_mcp/server.py:358-405 | the state, info, metrics, device-info, list and get tools issue only queries; every other tool that issues a call starts with a mutator |
| Catalog.MetricsRecordFields | tests/test_http_server.py:134-137 | the metrics record has exactly the keys voltage_v, current_a, power_w and energy_kwh, each holding its reading |
| Catalog.PowerMetricsReadings | src/power_switch_pro_mcp/http_server.py:204-214 | the meters are read voltage, current, power, energy in that order; on success each reading is under its key |
| Catalog.AddEntryRequestDefaults | src/power_switch_pro_mcp/http_server.py:275-281 | an omitted enabled, interval or retries becomes True, 60 or 3; a given one is passed on unchanged |
| Catalog.InfoRecordFields | src/power_switch_pro_mcp/http_server.py:164-170 | the outlet record carries the 0-based id, the name, "ON"/"OFF" by the state, the lock flag, and no "error" key |
| Catalog.ServeReusesDevice | src/power_switch_pro_mcp/server.py:33-47 | once a device is attached the environment is not read again, and the tool's calls extend the device's log |
| Catalog.ServeConfigFailure | src/power_switch_pro_mcp/server.py:39-42 | with no device and a missing host or password, no device is made, no call is issued, and the configuration error is the outcome |
| Catalog.ServeConstructFault | src/power_switch_pro_mcp/server.py:44 | with no device and valid settings whose client constructor raises, no device is kept, no call is issued, and the constructor's error is the outcome |
| Catalog.ServeFirstUse | src/power_switch_pro_mcp/server.py:44 | with no device and valid settings that construct, the tool runs on a fresh device whose log starts empty |
| Text.ParseIntOfIntToString | src/power_switch_pro_mcp/server.py:346 | the decimal rendering of an integer parses back to it |
| Text.IntToStringInjective | src/power_switch_pro_mcp/server.py:346 | distinct integers render differently |
| Text.SplitJoin | src/power_switch_pro_mcp/server.py:370 | joining newline-free lines by a newline and splitting again gives the lines back |
| Text.ParseIntListOfPyIntList | src/power_switch_pro_mcp/server.py:421 | the Python rendering of an int list, `[1, 3, 5]`, parses back to the list |
| Format.OutletLabelInjective | src/power_switch_pro_mcp/server.py:346 | two outlet messages that differ only in their label name the same outlet only if they are equal: the label determines the outlet id |
| Format.StateText | src/power_switch_pro_mcp/server.py:361 | "ON" for a set state, "OFF" otherwise, and the two differ |
| Format.StateLines | src/power_switch_pro_mcp/server.py:366-369 | one line per state, in list order: line k reads back as outlet k+1 with the k-th state |
| Format.ParseStateLineParts | src/power_switch_pro_mcp/server.py:368-369 | a state line parses back to its outlet number and state, whatever digits the number has |
| Format.AllStatesRoundTrip | src/power_switch_pro_mcp/server.py:364-370 | the newline-joined state listing parses back to the state list |
| Format.BulkListedMessageLists | src/power_switch_pro_mcp/server.py:421 | the bulk message lists the ids, each plus one, in the order given |
| Format.OutcomeSuffix | src/power_switch_pro_mcp/server.py:486 | the status text ends in " successfully" when the flag is set and in " failed" when it is not |
| Format.EntryStatusReportsFlag | src/power_switch_pro_mcp/http_server.py:396-397 | an AutoPing status message ends in " successfully" exactly when the device answered true and in " failed" exactly when it answered false, for update, delete, enable and disable |
| Format.ErrorsAreReported | src/power_switch_pro_mcp/http_server.py:70-75 | a raised error becomes text beginning "Error: " exactly for a device error (else "Unexpected error: ") and ending in its message, and a record whose only key is "error" |
| Format.StdioEntryDefaults | src/power_switch_pro_mcp/server.py:455-460 | an entry without keys lists as Host/Enabled/Interval/Retries "N/A" and outlet 0 |
| Format.HttpShowsHead | src/power_switch_pro_mcp/http_server.py:320-333 | with the keys present, the host line shows the first address, the outlet line the first bound outlet plus one, the enabled line the flag |
| Format.HttpShowsTail | src/power_switch_pro_mcp/http_server.py:326-338 | the state line says Active exactly when the first host status has its state set; the counts come from that status |
| Format.HttpEntryShows | src/power_switch_pro_mcp/http_server.py:317-338 | the rendered HTTP block splits into six lines that show the first address, the first outlet plus one, the flag, Active iff the first host's state is set, and that host's counts |
| Format.HttpEntryDefaults | src/power_switch_pro_mcp/http_server.py:319-336 | an entry without keys lists as host "N/A", outlet 0, enabled False, state Inactive, success and failure counts 0 |
| Format.StdioEntryBlockLayout | src/power_switch_pro_mcp/server.py:454-461 | an entry block is six lines headed "Entry k:", one field per line in a fixed order |
| Format.HttpEntryBlockLayout | src/power_switch_pro_mcp/http_server.py:330-337 | an entry block is six lines headed "Entry k:", one field per line in a fixed order |
| Format.StdioListingEmptyIff | src/power_switch_pro_mcp/server.py:451-463 | the listing is "No AutoPing entries configured" exactly for an empty list; otherwise it opens with "Entry 0:" |
| Format.HttpListingEmptyIff | src/power_switch_pro_mcp/http_server.py:315-339 | the listing is "No AutoPing entries configured" exactly for an empty list; otherwise it opens with "Entry 0:" |
| Tools.StateLinesOf | src/power_switch_pro_mcp/http_server.py:142-145 | the append loop builds exactly the state lines |
| Tools.BulkAction | src/power_switch_pro_mcp/server.py:415-420 | one id of the bulk loop logs the selected action (none for an unknown name) and raises what that call raises |
| Tools.BulkExplicit | src/power_switch_pro_mcp/server.py:411-421 | the loop over ids logs exactly the calls issued up to the first raise and returns what the specification of the plan says |
| Tools.OutletInfo | src/power_switch_pro_mcp/http_server.py:164-170 | the three reads (name, state, lock) are logged in order up to the first raise, and the record or error is the specified one |
| Tools.PowerMetrics | src/power_switch_pro_mcp/http_server.py:204-214 | the four readings are logged in order up to the first raise, and the record or error is the specified one |
| Tools.ExecuteOutlets | src/power_switch_pro_mcp/server.py:343-427 | each outlet, meter and device tool logs exactly the calls of its specified run and returns its specified outcome |
| Tools.ExecuteEntries | src/power_switch_pro_mcp/server.py:429-468 | adding, listing and reading AutoPing entries log their one call and return the specified entry answer or error |
| Tools.ExecuteEntryStatus | src/power_switch_pro_mcp/server.py:470-505 | updating, deleting, enabling and disabling an entry log their one call and return the specified status message or error |
| Tools.Execute | src/power_switch_pro_mcp/server.py:343-505 | every tool body logs exactly the calls of its specified run and returns its specified outcome |
| Tools.Invoke | src/power_switch_pro_mcp/http_server.py:66-69 | a tool body inside its `try` obtains the device and runs, as `Catalog.Serve` specifies |
| StdioServer.DecodeToolName | src/power_switch_pro_mcp/server.py:343-505 | every tool is reached by its name with its arguments |
| StdioServer.DecodeUnknownIff | src/power_switch_pro_mcp/server.py:507-508 | a name falls through to "unknown" exactly when it is none of the seventeen tool names |
| StdioServer.DecodeSelectsByName | src/power_switch_pro_mcp/server.py:343-505 | a decoded tool is the one its name selects |
| StdioServer.DecodeRequiresKeys | src/power_switch_pro_mcp/server.py:343-505 | for a handled tool, the first absent key among those its branch reads raises its `KeyError`; with none absent the tool decodes |
| StdioServer.DecodeMissingKey | src/power_switch_pro_mcp/server.py:344 | a missing-key error names one of the required keys, and only when that key is absent |
| StdioServer.AddEntryDefaults | src/power_switch_pro_mcp/server.py:432-434 | without the optional keys an entry is added enabled, with interval 60 and 3 retries |
| StdioServer.ReplyKnownIsServe | src/power_switch_pro_mcp/server.py:340-505 | a known tool replies with the rendered outcome of serving it through the accessor |
| StdioServer.ReplyConstructFault | src/power_switch_pro_mcp/server.py:340-342 | with no device and a raising client constructor, every name replies with that error's text and no device is kept |
| StdioServer.ReplyConfigError | src/power_switch_pro_mcp/server.py:340-342 | with no device and invalid settings, every name, known or not, replies with "Unexpected error: " and the configuration message, and constructs nothing |
| StdioServer.ReplyWithoutCalls | src/power_switch_pro_mcp/server.py:507-508 | an unknown name replies "Unknown tool: name", and a missing key "Unexpected error: 'key'"; neither issues a call |
| StdioServer.ReplyReportsRaise | src/power_switch_pro_mcp/server.py:510-515 | a tool that raised replies with the error text, an error-prefixed text; one that succeeded replies with its rendered payload |
| StdioServer.StdioBlocks | src/power_switch_pro_mcp/server.py:452-461 | the append loop builds one block per entry, numbered from 0 |
| StdioServer.ListingText | src/power_switch_pro_mcp/server.py:451-463 | the append loop over the entries yields exactly the specified listing text |
| StdioServer.RunTool | src/power_switch_pro_mcp/server.py:343-515 | a known tool logs exactly its specified calls and its text is the rendered outcome: the payload's text or the error text |
| StdioServer.CallTool | src/power_switch_pro_mcp/server.py:337-515 | `call_tool` changes the accessor and returns the text exactly as `Reply` specifies |
| HttpServer.StringToolsYieldText | src/power_switch_pro_mcp/http_server.py:59-463 | string tools produce a message or the entry list, dict tools a record, add-entry its reply |
| HttpServer.DictToolsNeverRaise | src/power_switch_pro_mcp/http_server.py:171-176 | a dict tool returns a one-key "error" record for any raise, the configuration error included, and otherwise the record built from the device's answers |
| HttpServer.StringToolsNeverRaise | src/power_switch_pro_mcp/http_server.py:70-75 | a string tool returns an error-prefixed text ending in the message for any raise |
| HttpServer.HttpBlocks | src/power_switch_pro_mcp/http_server.py:316-337 | the append loop builds one block per entry, numbered from 0 |
| HttpServer.OutletOn | src/power_switch_pro_mcp/http_server.py:60-75 | the tool's new accessor state and text are those of serving `OutletOn` |
| HttpServer.OutletOff | src/power_switch_pro_mcp/http_server.py:79-94 | the tool's new accessor state and text are those of serving `OutletOff` |
| HttpServer.OutletCycle | src/power_switch_pro_mcp/http_server.py:98-113 | the tool's new accessor state and text are those of serving `OutletCycle` |
| HttpServer.GetOutletState | src/power_switch_pro_mcp/http_server.py:117-133 | the tool's new accessor state and text are those of serving `GetOutletState` |
| HttpServer.GetAllOutletStates | src/power_switch_pro_mcp/http_server.py:137-152 | the tool's new accessor state and text are those of serving `GetAllOutletStates` |
| HttpServer.GetOutletInfo | src/power_switch_pro_mcp/http_server.py:156-176 | the tool's new accessor state and record are those of serving `GetOutletInfo` |
| HttpServer.SetOutletName | src/power_switch_pro_mcp/http_server.py:180-196 | the tool's new accessor state and text are those of serving `SetOutletName` |
| HttpServer.GetPowerMetrics | src/power_switch_pro_mcp/http_server.py:200-220 | the tool's new accessor state and record are those of serving `GetPowerMetrics` |
| HttpServer.GetDeviceInfo | src/power_switch_pro_mcp/http_server.py:224-235 | the tool's new accessor state and record are those of serving `GetDeviceInfo` |
| HttpServer.BulkOutletOperation | src/power_switch_pro_mcp/http_server.py:239-271 | the tool's new accessor state and text are those of serving `BulkOutletOperation` |
| HttpServer.AutopingAddEntry | src/power_switch_pro_mcp/http_server.py:275-306 | the tool's new accessor state is that of serving `AutopingAddEntry`, with omitted keyword arguments at their defaults, and its text the header line followed by the library's reply |
| HttpServer.AutopingListEntries | src/power_switch_pro_mcp/http_server.py:310-345 | the tool's new accessor state and text are those of serving `AutopingListEntries`, listed in this transport's layout |
| HttpServer.AutopingGetEntry | src/power_switch_pro_mcp/http_server.py:349-364 | the tool's new accessor state and record are those of serving `AutopingGetEntry` |
| HttpServer.AutopingUpdateEntry | src/power_switch_pro_mcp/http_server.py:368-403 | the tool's new accessor state and text are those of serving `AutopingUpdateEntry` |
| HttpServer.AutopingDeleteEntry | src/power_switch_pro_mcp/http_server.py:407-423 | the tool's new accessor state and text are those of serving `AutopingDeleteEntry` |
| HttpServer.AutopingEnableEntry | src/power_switch_pro_mcp/http_server.py:427-443 | the tool's new accessor state and text are those of serving `AutopingEnableEntry` |
| HttpServer.AutopingDisableEntry | src/power_switch_pro_mcp/http_server.py:447-463 | the tool's new accessor state and text are those of serving `AutopingDisableEntry` |
| HttpServer.TestSettings | tests/test_http_server.py:14-23 | the unit tests' environment yields host "192.168.0.100", user "admin", password "test-password", plain HTTP |
| HttpServer.TestOutletActionMessages | tests/test_http_server.py:56-78 | `outlet_on(0)`, `outlet_off(3)` and `outlet_cycle(5)` give "Outlet 1 turned ON", "Outlet 4 turned OFF" and "Outlet 6 power cycled" |
| HttpServer.TestOutletQueryMessages | tests/test_http_server.py:85-121 | `get_outlet_state(0)` of an outlet that is on gives "Outlet 1 is ON", and `set_outlet_name(0, "New Name")` gives "Outlet 1 renamed to 'New Name'" |
| HttpServer.TestBulkExplicit | tests/test_http_server.py:153-160 | `bulk_outlet_operation("on", [0, 2, 4])` issues three `on` calls in list order and reports outlets [1, 3, 5] |
| HttpServer.TestBulkAll | tests/test_http_server.py:162-168 | `bulk_outlet_operation("off", None)` issues the one call `bulk_operation(locked=False, action="off")` |

## Left out

- The MCP framework: tool registration, the `list_tools` schemas and their bounds (outlet ids 0–7, names of at most 16 characters, the action enum), the stdio and SSE transports, and the async `main`. This is framework code and its declarative data.
- The client library's behaviour: outlet physics, partial-update merging, entry-id assignment. A `Library` value supplies its answers and faults, as total functions of the call log.
- `device.outlets[i]` indexing: it is not modelled as an interaction and never raises. Only the method or property used on the outlet is a call.
- `json.dumps(..., indent=2)` and Python's `str()` of a library value are function parameters (`dumps`, `show`). The float meter readings and the device-info dict pass through as opaque `JsonValue`s.
- Argument type mismatches and non-integer ids: arguments are typed; a missing required key of the standard-I/O transport is modelled as its `KeyError`.
- AutoPing entries: each key is either present with a value of its expected type or absent. JSON `null`s and the Python truthiness of non-boolean values are not modelled; an entry's `state` counts as active only when it is `true`.
- Config.Lower: lower-cases ASCII letters only; Python's `str.lower` also folds non-ASCII letters, which matters only for values no spelling of "true" contains.
- Logging, including the log line at `server.py:510-515` that reads the tool name after `set_outlet_name` has rebound `name` to the new outlet name; only the log is affected.
- The HTTP module's `PORT` parsing and bind address (`http_server.py:47-56`), and its default 5000 against the 8000 the integration test expects: this is configuration I/O.
- scripts/setup_ecowitt_autoping.py, an interactive console flow over the client library.
- Whether the client constructor raises depends only on the settings (`Library.construct`), so a retry with the same settings fails the same way; a constructor that fails once and then succeeds is not modelled.
- The race between two first calls of `get_device`: there is no concurrency in the model.
- Exceptions raised while shaping a result (for example a non-integer `outlet` in a standard-I/O entry) are not modelled; a tool's faults come only from its calls and from constructing the client.
- HttpServer.TextReply and HttpServer.RecordReply: their arms for payload kinds the tool never produces give the empty text or `null`; `HttpServer.StringToolsYieldText` shows those arms are never reached.
