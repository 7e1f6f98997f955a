/**
 * The standard-I/O transport's `call_tool` (src/power_switch_pro_mcp/server.py:337-515):
 * one entry point that obtains the device, dispatches on the tool name, reads
 * the arguments it needs, runs the tool and returns its outcome as text. Every
 * error, including the configuration error of the accessor and a missing
 * argument, comes back as text; nothing is raised.
 */
module StdioServer {
  import opened Wrappers
  import opened Text
  import opened Config
  import opened PowerSwitch
  import opened Format
  import opened Catalog
  import opened Access
  import opened Tools

  /** The keys of `arguments` the tools read, with their values; `None` is an absent key (or a null for the optional ones). */
  datatype Args = Args(
    outletId: Option<int>,
    name: Option<string>,
    action: Option<string>,
    outletIds: Option<seq<int>>,
    host: Option<string>,
    enabled: Option<bool>,
    interval: Option<int>,
    retries: Option<int>,
    entryId: Option<int>)

  /** A call read against the catalog: a tool with its arguments, a required key that is absent, or a name no branch handles. */
  datatype Request = Known(op: Op) | Missing(key: string) | Unknown

  const NoArgs := Args(None, None, None, None, None, None, None, None, None)

  /** The name dispatch and the argument reads of each branch, in the order the branch reads them. */
  function Decode(name: string, a: Args): Request
  {
    if name == "outlet_on" then
      if a.outletId.None? then Missing("outlet_id") else Known(OutletOn(a.outletId.value))
    else if name == "outlet_off" then
      if a.outletId.None? then Missing("outlet_id") else Known(OutletOff(a.outletId.value))
    else if name == "outlet_cycle" then
      if a.outletId.None? then Missing("outlet_id") else Known(OutletCycle(a.outletId.value))
    else if name == "get_outlet_state" then
      if a.outletId.None? then Missing("outlet_id") else Known(GetOutletState(a.outletId.value))
    else if name == "get_all_outlet_states" then Known(GetAllOutletStates)
    else if name == "get_outlet_info" then
      if a.outletId.None? then Missing("outlet_id") else Known(GetOutletInfo(a.outletId.value))
    else if name == "set_outlet_name" then
      if a.outletId.None? then Missing("outlet_id")
      else if a.name.None? then Missing("name")
      else Known(SetOutletName(a.outletId.value, a.name.value))
    else if name == "get_power_metrics" then Known(GetPowerMetrics)
    else if name == "get_device_info" then Known(GetDeviceInfo)
    else if name == "bulk_outlet_operation" then
      if a.action.None? then Missing("action") else Known(BulkOutletOperation(a.action.value, a.outletIds))
    else if name == "autoping_add_entry" then
      if a.host.None? then Missing("host")
      else if a.outletId.None? then Missing("outlet_id")
      else Known(AddEntryRequest(a.host.value, a.outletId.value, a.enabled, a.interval, a.retries))
    else if name == "autoping_list_entries" then Known(AutopingListEntries)
    else if name == "autoping_get_entry" then
      if a.entryId.None? then Missing("entry_id") else Known(AutopingGetEntry(a.entryId.value))
    else if name == "autoping_update_entry" then
      if a.entryId.None? then Missing("entry_id")
      else Known(AutopingUpdateEntry(a.entryId.value, a.host, a.outletId, a.enabled, a.interval, a.retries))
    else if name == "autoping_delete_entry" then
      if a.entryId.None? then Missing("entry_id") else Known(AutopingDeleteEntry(a.entryId.value))
    else if name == "autoping_enable_entry" then
      if a.entryId.None? then Missing("entry_id") else Known(AutopingEnableEntry(a.entryId.value))
    else if name == "autoping_disable_entry" then
      if a.entryId.None? then Missing("entry_id") else Known(AutopingDisableEntry(a.entryId.value))
    else Unknown
  }

  /** The names the dispatch handles. */
  const ToolNames: set<string> := {
    "outlet_on", "outlet_off", "outlet_cycle", "get_outlet_state", "get_all_outlet_states",
    "get_outlet_info", "set_outlet_name", "get_power_metrics", "get_device_info",
    "bulk_outlet_operation", "autoping_add_entry", "autoping_list_entries", "autoping_get_entry",
    "autoping_update_entry", "autoping_delete_entry", "autoping_enable_entry", "autoping_disable_entry" }

  /** The tool name that selects each operation. */
  function ToolName(op: Op): string
  {
    match op
    case OutletOn(_) => "outlet_on"
    case OutletOff(_) => "outlet_off"
    case OutletCycle(_) => "outlet_cycle"
    case GetOutletState(_) => "get_outlet_state"
    case GetAllOutletStates => "get_all_outlet_states"
    case GetOutletInfo(_) => "get_outlet_info"
    case SetOutletName(_, _) => "set_outlet_name"
    case GetPowerMetrics => "get_power_metrics"
    case GetDeviceInfo => "get_device_info"
    case BulkOutletOperation(_, _) => "bulk_outlet_operation"
    case AutopingAddEntry(_, _, _, _, _) => "autoping_add_entry"
    case AutopingListEntries => "autoping_list_entries"
    case AutopingGetEntry(_) => "autoping_get_entry"
    case AutopingUpdateEntry(_, _, _, _, _, _) => "autoping_update_entry"
    case AutopingDeleteEntry(_) => "autoping_delete_entry"
    case AutopingEnableEntry(_) => "autoping_enable_entry"
    case AutopingDisableEntry(_) => "autoping_disable_entry"
  }

  /** Arguments that carry every value of an operation under the keys its branch reads. */
  function ArgsFor(op: Op): Args
  {
    match op
    case OutletOn(i) => NoArgs.(outletId := Some(i))
    case OutletOff(i) => NoArgs.(outletId := Some(i))
    case OutletCycle(i) => NoArgs.(outletId := Some(i))
    case GetOutletState(i) => NoArgs.(outletId := Some(i))
    case GetAllOutletStates => NoArgs
    case GetOutletInfo(i) => NoArgs.(outletId := Some(i))
    case SetOutletName(i, n) => NoArgs.(outletId := Some(i), name := Some(n))
    case GetPowerMetrics => NoArgs
    case GetDeviceInfo => NoArgs
    case BulkOutletOperation(a, ids) => NoArgs.(action := Some(a), outletIds := ids)
    case AutopingAddEntry(host, i, en, iv, rt) =>
      NoArgs.(host := Some(host), outletId := Some(i), enabled := Some(en), interval := Some(iv), retries := Some(rt))
    case AutopingListEntries => NoArgs
    case AutopingGetEntry(e) => NoArgs.(entryId := Some(e))
    case AutopingUpdateEntry(e, nh, no, ne, ni, nr) =>
      NoArgs.(entryId := Some(e), host := nh, outletId := no, enabled := ne, interval := ni, retries := nr)
    case AutopingDeleteEntry(e) => NoArgs.(entryId := Some(e))
    case AutopingEnableEntry(e) => NoArgs.(entryId := Some(e))
    case AutopingDisableEntry(e) => NoArgs.(entryId := Some(e))
  }

  /** Every operation is reached by its tool name with its arguments. */
  lemma DecodeToolName(op: Op)
    ensures ToolName(op) in ToolNames
    ensures Decode(ToolName(op), ArgsFor(op)) == Known(op)
  {
  }

  /** The dispatch falls through to "unknown" exactly for names it does not handle, whatever the arguments. */
  lemma DecodeUnknownIff(name: string, a: Args)
    ensures Decode(name, a).Unknown? <==> name !in ToolNames
  {
  }

  /** A decoded operation is the one its name selects. */
  lemma DecodeSelectsByName(name: string, a: Args)
    ensures Decode(name, a).Known? ==> ToolName(Decode(name, a).op) == name
  {
    if name == "outlet_on" {
    } else if name == "outlet_off" {
    } else if name == "outlet_cycle" {
    } else if name == "get_outlet_state" {
    } else if name == "get_all_outlet_states" {
    } else if name == "get_outlet_info" {
    } else if name == "set_outlet_name" {
    } else if name == "get_power_metrics" {
    } else if name == "get_device_info" {
    } else if name == "bulk_outlet_operation" {
    } else if name == "autoping_add_entry" {
    } else if name == "autoping_list_entries" {
    } else if name == "autoping_get_entry" {
    } else if name == "autoping_update_entry" {
    } else if name == "autoping_delete_entry" {
    } else if name == "autoping_enable_entry" {
    } else if name == "autoping_disable_entry" {
    } else {
      assert name !in ToolNames;
      DecodeUnknownIff(name, a);
    }
  }

  /** An absent key is one of the required keys, and it is reported only when that key is indeed absent. */
  lemma DecodeMissingKey(name: string, a: Args)
    requires Decode(name, a).Missing?
    ensures var key := Decode(name, a).key;
      && (key == "outlet_id" ==> a.outletId.None?)
      && (key == "name" ==> a.name.None?)
      && (key == "action" ==> a.action.None?)
      && (key == "host" ==> a.host.None?)
      && (key == "entry_id" ==> a.entryId.None?)
      && (key == "outlet_id" || key == "name" || key == "action" || key == "host" || key == "entry_id")
  {
    if name == "outlet_on" || name == "outlet_off" || name == "outlet_cycle" || name == "get_outlet_state" ||
       name == "get_outlet_info" {
      assert a.outletId.None?;
    } else if name == "set_outlet_name" {
    } else if name == "bulk_outlet_operation" {
      assert a.action.None?;
    } else if name == "autoping_add_entry" {
    } else {
      assert a.entryId.None?;
    }
  }

  /** The keys a tool's branch reads with `arguments[...]`, in the order it reads them. */
  function RequiredKeys(name: string): seq<string>
  {
    if name in {"outlet_on", "outlet_off", "outlet_cycle", "get_outlet_state", "get_outlet_info"} then ["outlet_id"]
    else if name == "set_outlet_name" then ["outlet_id", "name"]
    else if name == "bulk_outlet_operation" then ["action"]
    else if name == "autoping_add_entry" then ["host", "outlet_id"]
    else if name in {"autoping_get_entry", "autoping_update_entry", "autoping_delete_entry",
                     "autoping_enable_entry", "autoping_disable_entry"} then ["entry_id"]
    else []
  }

  /** The key is absent from the arguments. */
  predicate Absent(a: Args, key: string)
  {
    || (key == "outlet_id" && a.outletId.None?)
    || (key == "name" && a.name.None?)
    || (key == "action" && a.action.None?)
    || (key == "host" && a.host.None?)
    || (key == "entry_id" && a.entryId.None?)
  }

  /** The first of `keys` that is absent, if any. */
  function FirstAbsent(keys: seq<string>, a: Args): Option<string>
  {
    if keys == [] then None
    else if Absent(a, keys[0]) then Some(keys[0])
    else FirstAbsent(keys[1..], a)
  }

  /**
   * A handled tool raises `KeyError` for the first required key it reads that
   * is absent, and decodes to an operation when every required key is present.
   */
  lemma DecodeRequiresKeys(name: string, a: Args)
    requires name in ToolNames
    ensures var f := FirstAbsent(RequiredKeys(name), a);
      && (f.Some? ==> Decode(name, a) == Missing(f.value))
      && (f.None? ==> Decode(name, a).Known?)
  {
    var keys := RequiredKeys(name);
    if name in {"outlet_on", "outlet_off", "outlet_cycle", "get_outlet_state", "get_outlet_info"} {
      assert keys == ["outlet_id"] && keys[1..] == [];
    } else if name == "set_outlet_name" {
      assert keys[1..] == ["name"] && keys[1..][1..] == [];
      assert FirstAbsent(keys[1..], a) == if a.name.None? then Some("name") else None;
    } else if name == "bulk_outlet_operation" {
      assert keys == ["action"] && keys[1..] == [];
    } else if name == "autoping_add_entry" {
      assert keys[1..] == ["outlet_id"] && keys[1..][1..] == [];
      assert FirstAbsent(keys[1..], a) == if a.outletId.None? then Some("outlet_id") else None;
    } else if name in {"autoping_get_entry", "autoping_update_entry", "autoping_delete_entry",
                       "autoping_enable_entry", "autoping_disable_entry"} {
      assert keys == ["entry_id"] && keys[1..] == [];
    } else {
      assert keys == [];
    }
  }

  /** `autoping_add_entry` without the optional keys adds an enabled entry pinging every 60 seconds with 3 retries. */
  lemma AddEntryDefaults(host: string, outletId: int)
    ensures Decode("autoping_add_entry", NoArgs.(host := Some(host), outletId := Some(outletId))) ==
      Known(AutopingAddEntry(host, outletId, true, 60, 3))
  {
  }

  /** `str(KeyError(key))`: the key in quotes. */
  function KeyErrorText(key: string): string
  {
    "'" + key + "'"
  }

  /** A successful outcome as this transport's text; records are serialised by `dumps`. */
  function Render(p: Payload, dumps: JsonValue -> string): string
  {
    match p
    case Message(t) => t
    case Record(v) => dumps(v)
    case Added(host, outletId, reply) => AddedHeader(host, outletId) + "\n" + dumps(reply)
    case Listed(entries) => StdioEntriesText(entries)
  }

  /** A tool's outcome as this transport's text: the error text, or the rendered payload. */
  function OutcomeText(r: Result<Payload, Raised>, dumps: JsonValue -> string): string
  {
    match r
    case Failure(e) => ErrorText(e)
    case Success(p) => Render(p, dumps)
  }

  /** The accessor's state after `call_tool` and the text it returns. */
  function Reply(lib: Library, snap: Option<seq<Call>>, env: Env, name: string, a: Args,
                 dumps: JsonValue -> string): (Option<seq<Call>>, string)
  {
    match Attach(lib, snap, env)
    case Failure(e) => (snap, ErrorText(e))
    case Success(h) =>
      match Decode(name, a)
      case Unknown => (Some(h), UnknownToolMessage(name))
      case Missing(key) => (Some(h), ErrorText(OtherError(KeyErrorText(key))))
      case Known(op) => var s := Perform(lib, h, op); (Some(h + s.calls), OutcomeText(s.result, dumps))
  }

  /** A known tool replies with the outcome of serving it through the accessor. */
  lemma ReplyKnownIsServe(lib: Library, snap: Option<seq<Call>>, env: Env, name: string, a: Args, dumps: JsonValue -> string)
    requires Decode(name, a).Known?
    ensures var s := Serve(lib, snap, env, Decode(name, a).op);
      Reply(lib, snap, env, name, a, dumps) == (s.after, OutcomeText(s.result, dumps))
  {
  }

  /**
   * The device comes first: with no handle and a missing host or password,
   * every name, known or not, replies with the configuration error as an
   * unexpected error and constructs nothing.
   */
  lemma ReplyConfigError(lib: Library, env: Env, name: string, a: Args, dumps: JsonValue -> string)
    requires HostVar !in env || env[HostVar] == "" || PasswordVar !in env || env[PasswordVar] == ""
    ensures Reply(lib, None, env, name, a, dumps) ==
      (None, "Unexpected error: " + MissingMessage)
  {
    assert Attach(lib, None, env) == Failure(OtherError(MissingMessage));
  }

  /** With no handle and valid settings whose client constructor raises, every name replies with that error and nothing is kept. */
  lemma ReplyConstructFault(lib: Library, env: Env, name: string, a: Args, dumps: JsonValue -> string)
    requires ReadSettings(env).Success? && lib.construct(ReadSettings(env).value).Some?
    ensures var e := lib.construct(ReadSettings(env).value).value;
      Reply(lib, None, env, name, a, dumps) == (None, ErrorText(e))
  {
  }

  /** Once a device exists, an unknown name, or a known one missing a required key, issues no call. */
  lemma ReplyWithoutCalls(lib: Library, h: seq<Call>, env: Env, name: string, a: Args, dumps: JsonValue -> string)
    requires !Decode(name, a).Known?
    ensures Reply(lib, Some(h), env, name, a, dumps).0 == Some(h)
    ensures Decode(name, a).Unknown? ==> Reply(lib, Some(h), env, name, a, dumps).1 == "Unknown tool: " + name
    ensures Decode(name, a).Missing? ==>
      Reply(lib, Some(h), env, name, a, dumps).1 == "Unexpected error: '" + Decode(name, a).key + "'"
  {
  }

  /**
   * A reply is an error text exactly when the tool raised (or a key was missing,
   * or the settings were invalid); a device error keeps its message.
   */
  lemma ReplyReportsRaise(lib: Library, h: seq<Call>, env: Env, op: Op, dumps: JsonValue -> string)
    ensures var s := Perform(lib, h, op); var t := Reply(lib, Some(h), env, ToolName(op), ArgsFor(op), dumps).1;
      && (s.result.Failure? ==> t == ErrorText(s.result.error) && IsErrorText(t))
      && (s.result.Success? ==> t == Render(s.result.value, dumps))
  {
    DecodeToolName(op);
    var s := Perform(lib, h, op);
    if s.result.Failure? {
      ErrorsAreReported(s.result.error);
    }
  }

  /** The append loop of `autoping_list_entries`: one block per entry, numbered from 0. */
  method StdioBlocks(entries: seq<Entry>) returns (blocks: seq<string>)
    ensures |blocks| == |entries|
    ensures forall k :: 0 <= k < |entries| ==> blocks[k] == StdioEntryBlock(k, entries[k])
  {
    blocks := [];
    var i := 0;
    while i < |entries|
      invariant 0 <= i <= |entries|
      invariant |blocks| == i
      invariant forall k :: 0 <= k < i ==> blocks[k] == StdioEntryBlock(k, entries[k])
    {
      blocks := blocks + [StdioEntryBlock(i, entries[i])];
      i := i + 1;
    }
  }

  /** The listing of `autoping_list_entries`, built by its append loop. */
  method ListingText(entries: seq<Entry>) returns (text: string)
    ensures text == StdioEntriesText(entries)
  {
    var blocks := StdioBlocks(entries);
    assert blocks == seq(|entries|, k requires 0 <= k < |entries| => StdioEntryBlock(k, entries[k]));
    text := EntriesText(blocks);
  }

  /** A known tool on the device: its calls, then its outcome as this transport's text. */
  method RunTool(d: Device, op: Op, dumps: JsonValue -> string) returns (text: string)
    modifies d
    ensures var s := Perform(d.lib, old(d.log), op);
      d.log == old(d.log) + s.calls && text == OutcomeText(s.result, dumps)
  {
    var r := Execute(d, op);
    if r.Failure? {
      text := ErrorText(r.error);
    } else if r.value.Listed? {
      text := ListingText(r.value.entries);
    } else {
      text := Render(r.value, dumps);
    }
  }

  /** `call_tool`. */
  method CallTool(acc: DeviceAccessor, env: Env, name: string, a: Args, dumps: JsonValue -> string) returns (text: string)
    requires acc.Valid()
    modifies acc, acc.handle
    ensures acc.Valid()
    ensures var rep := Reply(acc.lib, old(acc.Snapshot()), env, name, a, dumps);
      acc.Snapshot() == rep.0 && text == rep.1
  {
    var got := acc.GetDevice(env);
    if got.Failure? {
      return ErrorText(got.error);
    }
    var d := got.value;
    match Decode(name, a)
    case Unknown =>
      text := UnknownToolMessage(name);
    case Missing(key) =>
      text := ErrorText(OtherError(KeyErrorText(key)));
    case Known(op) =>
      text := RunTool(d, op, dumps);
  }
}
