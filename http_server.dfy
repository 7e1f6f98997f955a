/**
 * The HTTP transport's tool functions (src/power_switch_pro_mcp/http_server.py:59-463):
 * one entry point per tool, with typed arguments and defaults supplied by the
 * framework. Each obtains the device inside its `try`, runs its tool, and
 * returns text (the string tools) or a record (the dict tools); a raised error
 * becomes an error text or an `{"error": ...}` record.
 */
module HttpServer {
  import opened Wrappers
  import opened Text
  import opened Config
  import opened PowerSwitch
  import opened Format
  import Catalog
  import opened Access
  import opened Tools

  /**
   * The outcome of a string tool. Records and add-entry replies are not
   * produced by the tools that use this (see `StringToolsYieldText`).
   */
  function TextReply(r: Result<Catalog.Payload, Raised>): string
  {
    match r
    case Failure(e) => ErrorText(e)
    case Success(p) =>
      match p
      case Message(t) => t
      case Listed(entries) => HttpEntriesText(entries)
      case Record(_) => ""
      case Added(_, _, _) => ""
  }

  /** The outcome of `autoping_add_entry`: the header line, then `str` of the library's reply. */
  function AddedReply(r: Result<Catalog.Payload, Raised>, show: JsonValue -> string): string
  {
    match r
    case Failure(e) => ErrorText(e)
    case Success(p) => if p.Added? then AddedHeader(p.host, p.outlet) + "\n" + show(p.reply) else ""
  }

  /** The outcome of a dict tool: the record, or the error record. */
  function RecordReply(r: Result<Catalog.Payload, Raised>): JsonValue
  {
    match r
    case Failure(e) => ErrorRecord(e)
    case Success(p) => if p.Record? then p.value else JNull
  }

  /** The tools that return a record. */
  predicate IsDictTool(op: Catalog.Op)
  {
    op.GetOutletInfo? || op.GetPowerMetrics? || op.GetDeviceInfo? || op.AutopingGetEntry?
  }

  /** Every string tool other than add-entry produces a finished text or the entry list; the dict tools produce a record. */
  lemma StringToolsYieldText(lib: Library, h: seq<Call>, op: Catalog.Op)
    ensures !IsDictTool(op) && !op.AutopingAddEntry? ==>
      Catalog.PayloadOf(lib, h, op).Message? || Catalog.PayloadOf(lib, h, op).Listed?
    ensures IsDictTool(op) ==> Catalog.PayloadOf(lib, h, op).Record?
    ensures op.AutopingAddEntry? ==> Catalog.PayloadOf(lib, h, op).Added?
  {
  }

  /**
   * A dict tool never raises: a raised error, the configuration error
   * included, comes back as a record whose only key is "error"; otherwise the
   * record the tool built is returned whole.
   */
  lemma DictToolsNeverRaise(lib: Library, snap: Option<seq<Call>>, env: Env, op: Catalog.Op)
    requires IsDictTool(op)
    ensures var s := Catalog.Serve(lib, snap, env, op); var v := RecordReply(s.result);
      && (s.result.Failure? ==> v.JObject? && |v.fields| == 1 && Field(v, "error").Some?)
      && (s.result.Success? ==> s.after.Some? && v == Catalog.PayloadOf(lib, s.after.value[..|s.after.value| - |Catalog.PlanOf(op)|], op).value)
  {
    var s := Catalog.Serve(lib, snap, env, op);
    if s.result.Failure? {
      ErrorsAreReported(s.result.error);
    } else {
      var h := Catalog.Attach(lib, snap, env).value;
      Catalog.PerformStopsAtFirstFault(lib, h, op);
      StringToolsYieldText(lib, h, op);
      assert s.after.value[..|s.after.value| - |Catalog.PlanOf(op)|] == h;
    }
  }

  /** A string tool never raises: a raised error comes back as an error text carrying the message. */
  lemma StringToolsNeverRaise(lib: Library, snap: Option<seq<Call>>, env: Env, op: Catalog.Op)
    requires !IsDictTool(op) && !op.AutopingAddEntry?
    ensures var s := Catalog.Serve(lib, snap, env, op); var t := TextReply(s.result);
      && (s.result.Failure? ==> IsErrorText(t) && t[|t| - |s.result.error.message|..] == s.result.error.message)
      && (s.result.Success? ==> s.result.value.Message? ==> t == s.result.value.text)
  {
    var s := Catalog.Serve(lib, snap, env, op);
    if s.result.Failure? {
      ErrorsAreReported(s.result.error);
    }
  }

  /** The append loop of `autoping_list_entries`: one block per entry, numbered from 0. */
  method HttpBlocks(entries: seq<Entry>) returns (blocks: seq<string>)
    ensures |blocks| == |entries|
    ensures forall k :: 0 <= k < |entries| ==> blocks[k] == HttpEntryBlock(k, entries[k])
  {
    blocks := [];
    var i := 0;
    while i < |entries|
      invariant 0 <= i <= |entries|
      invariant |blocks| == i
      invariant forall k :: 0 <= k < i ==> blocks[k] == HttpEntryBlock(k, entries[k])
    {
      blocks := blocks + [HttpEntryBlock(i, entries[i])];
      i := i + 1;
    }
  }

  /** A string tool: run it behind the accessor and render its outcome. */
  method StringTool(acc: DeviceAccessor, env: Env, op: Catalog.Op) returns (text: string)
    requires acc.Valid()
    modifies acc, acc.handle
    ensures acc.Valid()
    ensures var s := Catalog.Serve(acc.lib, old(acc.Snapshot()), env, op);
      acc.Snapshot() == s.after && text == TextReply(s.result)
  {
    var r := Invoke(acc, env, op);
    text := TextReply(r);
  }

  /** A dict tool: run it behind the accessor and return its record. */
  method DictTool(acc: DeviceAccessor, env: Env, op: Catalog.Op) returns (v: JsonValue)
    requires acc.Valid()
    modifies acc, acc.handle
    ensures acc.Valid()
    ensures var s := Catalog.Serve(acc.lib, old(acc.Snapshot()), env, op);
      acc.Snapshot() == s.after && v == RecordReply(s.result)
  {
    var r := Invoke(acc, env, op);
    v := RecordReply(r);
  }

  method OutletOn(acc: DeviceAccessor, env: Env, outletId: int) returns (text: string)
    requires acc.Valid()
    modifies acc, acc.handle
    ensures acc.Valid()
    ensures var s := Catalog.Serve(acc.lib, old(acc.Snapshot()), env, Catalog.OutletOn(outletId));
      acc.Snapshot() == s.after && text == TextReply(s.result)
  {
    text := StringTool(acc, env, Catalog.OutletOn(outletId));
  }

  method OutletOff(acc: DeviceAccessor, env: Env, outletId: int) returns (text: string)
    requires acc.Valid()
    modifies acc, acc.handle
    ensures acc.Valid()
    ensures var s := Catalog.Serve(acc.lib, old(acc.Snapshot()), env, Catalog.OutletOff(outletId));
      acc.Snapshot() == s.after && text == TextReply(s.result)
  {
    text := StringTool(acc, env, Catalog.OutletOff(outletId));
  }

  method OutletCycle(acc: DeviceAccessor, env: Env, outletId: int) returns (text: string)
    requires acc.Valid()
    modifies acc, acc.handle
    ensures acc.Valid()
    ensures var s := Catalog.Serve(acc.lib, old(acc.Snapshot()), env, Catalog.OutletCycle(outletId));
      acc.Snapshot() == s.after && text == TextReply(s.result)
  {
    text := StringTool(acc, env, Catalog.OutletCycle(outletId));
  }

  method GetOutletState(acc: DeviceAccessor, env: Env, outletId: int) returns (text: string)
    requires acc.Valid()
    modifies acc, acc.handle
    ensures acc.Valid()
    ensures var s := Catalog.Serve(acc.lib, old(acc.Snapshot()), env, Catalog.GetOutletState(outletId));
      acc.Snapshot() == s.after && text == TextReply(s.result)
  {
    text := StringTool(acc, env, Catalog.GetOutletState(outletId));
  }

  method GetAllOutletStates(acc: DeviceAccessor, env: Env) returns (text: string)
    requires acc.Valid()
    modifies acc, acc.handle
    ensures acc.Valid()
    ensures var s := Catalog.Serve(acc.lib, old(acc.Snapshot()), env, Catalog.GetAllOutletStates);
      acc.Snapshot() == s.after && text == TextReply(s.result)
  {
    text := StringTool(acc, env, Catalog.GetAllOutletStates);
  }

  method GetOutletInfo(acc: DeviceAccessor, env: Env, outletId: int) returns (v: JsonValue)
    requires acc.Valid()
    modifies acc, acc.handle
    ensures acc.Valid()
    ensures var s := Catalog.Serve(acc.lib, old(acc.Snapshot()), env, Catalog.GetOutletInfo(outletId));
      acc.Snapshot() == s.after && v == RecordReply(s.result)
  {
    v := DictTool(acc, env, Catalog.GetOutletInfo(outletId));
  }

  method SetOutletName(acc: DeviceAccessor, env: Env, outletId: int, name: string) returns (text: string)
    requires acc.Valid()
    modifies acc, acc.handle
    ensures acc.Valid()
    ensures var s := Catalog.Serve(acc.lib, old(acc.Snapshot()), env, Catalog.SetOutletName(outletId, name));
      acc.Snapshot() == s.after && text == TextReply(s.result)
  {
    text := StringTool(acc, env, Catalog.SetOutletName(outletId, name));
  }

  method GetPowerMetrics(acc: DeviceAccessor, env: Env) returns (v: JsonValue)
    requires acc.Valid()
    modifies acc, acc.handle
    ensures acc.Valid()
    ensures var s := Catalog.Serve(acc.lib, old(acc.Snapshot()), env, Catalog.GetPowerMetrics);
      acc.Snapshot() == s.after && v == RecordReply(s.result)
  {
    v := DictTool(acc, env, Catalog.GetPowerMetrics);
  }

  method GetDeviceInfo(acc: DeviceAccessor, env: Env) returns (v: JsonValue)
    requires acc.Valid()
    modifies acc, acc.handle
    ensures acc.Valid()
    ensures var s := Catalog.Serve(acc.lib, old(acc.Snapshot()), env, Catalog.GetDeviceInfo);
      acc.Snapshot() == s.after && v == RecordReply(s.result)
  {
    v := DictTool(acc, env, Catalog.GetDeviceInfo);
  }

  /** `outlet_ids` defaults to `None`, the all-unlocked path. */
  method BulkOutletOperation(acc: DeviceAccessor, env: Env, action: string, outletIds: Option<seq<int>>) returns (text: string)
    requires acc.Valid()
    modifies acc, acc.handle
    ensures acc.Valid()
    ensures var s := Catalog.Serve(acc.lib, old(acc.Snapshot()), env, Catalog.BulkOutletOperation(action, outletIds));
      acc.Snapshot() == s.after && text == TextReply(s.result)
  {
    text := StringTool(acc, env, Catalog.BulkOutletOperation(action, outletIds));
  }

  /** An omitted keyword argument (`None`) takes the function's default, as `Catalog.AddEntryRequest` resolves it. */
  method AutopingAddEntry(acc: DeviceAccessor, env: Env, host: string, outletId: int, enabled: Option<bool>,
                          interval: Option<int>, retries: Option<int>, show: JsonValue -> string) returns (text: string)
    requires acc.Valid()
    modifies acc, acc.handle
    ensures acc.Valid()
    ensures var s := Catalog.Serve(acc.lib, old(acc.Snapshot()), env,
                                   Catalog.AddEntryRequest(host, outletId, enabled, interval, retries));
      acc.Snapshot() == s.after && text == AddedReply(s.result, show)
  {
    var r := Invoke(acc, env, Catalog.AddEntryRequest(host, outletId, enabled, interval, retries));
    text := AddedReply(r, show);
  }

  method AutopingListEntries(acc: DeviceAccessor, env: Env) returns (text: string)
    requires acc.Valid()
    modifies acc, acc.handle
    ensures acc.Valid()
    ensures var s := Catalog.Serve(acc.lib, old(acc.Snapshot()), env, Catalog.AutopingListEntries);
      acc.Snapshot() == s.after && text == TextReply(s.result)
  {
    var r := Invoke(acc, env, Catalog.AutopingListEntries);
    if r.Success? && r.value.Listed? {
      var entries := r.value.entries;
      var blocks := HttpBlocks(entries);
      assert blocks == seq(|entries|, k requires 0 <= k < |entries| => HttpEntryBlock(k, entries[k]));
      text := EntriesText(blocks);
    } else {
      text := TextReply(r);
    }
  }

  method AutopingGetEntry(acc: DeviceAccessor, env: Env, entryId: int) returns (v: JsonValue)
    requires acc.Valid()
    modifies acc, acc.handle
    ensures acc.Valid()
    ensures var s := Catalog.Serve(acc.lib, old(acc.Snapshot()), env, Catalog.AutopingGetEntry(entryId));
      acc.Snapshot() == s.after && v == RecordReply(s.result)
  {
    v := DictTool(acc, env, Catalog.AutopingGetEntry(entryId));
  }

  /** Every field other than `entry_id` defaults to `None`, which the library leaves unchanged. */
  method AutopingUpdateEntry(acc: DeviceAccessor, env: Env, entryId: int, host: Option<string>, outletId: Option<int>,
                             enabled: Option<bool>, interval: Option<int>, retries: Option<int>) returns (text: string)
    requires acc.Valid()
    modifies acc, acc.handle
    ensures acc.Valid()
    ensures var s := Catalog.Serve(acc.lib, old(acc.Snapshot()), env,
                                   Catalog.AutopingUpdateEntry(entryId, host, outletId, enabled, interval, retries));
      acc.Snapshot() == s.after && text == TextReply(s.result)
  {
    text := StringTool(acc, env, Catalog.AutopingUpdateEntry(entryId, host, outletId, enabled, interval, retries));
  }

  method AutopingDeleteEntry(acc: DeviceAccessor, env: Env, entryId: int) returns (text: string)
    requires acc.Valid()
    modifies acc, acc.handle
    ensures acc.Valid()
    ensures var s := Catalog.Serve(acc.lib, old(acc.Snapshot()), env, Catalog.AutopingDeleteEntry(entryId));
      acc.Snapshot() == s.after && text == TextReply(s.result)
  {
    text := StringTool(acc, env, Catalog.AutopingDeleteEntry(entryId));
  }

  method AutopingEnableEntry(acc: DeviceAccessor, env: Env, entryId: int) returns (text: string)
    requires acc.Valid()
    modifies acc, acc.handle
    ensures acc.Valid()
    ensures var s := Catalog.Serve(acc.lib, old(acc.Snapshot()), env, Catalog.AutopingEnableEntry(entryId));
      acc.Snapshot() == s.after && text == TextReply(s.result)
  {
    text := StringTool(acc, env, Catalog.AutopingEnableEntry(entryId));
  }

  method AutopingDisableEntry(acc: DeviceAccessor, env: Env, entryId: int) returns (text: string)
    requires acc.Valid()
    modifies acc, acc.handle
    ensures acc.Valid()
    ensures var s := Catalog.Serve(acc.lib, old(acc.Snapshot()), env, Catalog.AutopingDisableEntry(entryId));
      acc.Snapshot() == s.after && text == TextReply(s.result)
  {
    text := StringTool(acc, env, Catalog.AutopingDisableEntry(entryId));
  }

  /** The unit tests' settings: the host and password given, the username "admin", plain HTTP. */
  lemma TestSettings()
    ensures ReadSettings(map[HostVar := "192.168.0.100", PasswordVar := "test-password",
                             UsernameVar := "admin", UseHttpsVar := "false"]) ==
      Success(Settings("192.168.0.100", "admin", "test-password", false))
  {
    LowerIsTrueIff("false");
  }

  /** The one-digit outlet numbers the unit tests show. */
  lemma SmallNumbers()
    ensures IntToString(1) == "1" && IntToString(4) == "4" && IntToString(6) == "6"
  {
    assert NatToString(1) == [Digit(1)] && NatToString(4) == [Digit(4)] && NatToString(6) == [Digit(6)];
  }

  /** The unit tests' outlet actions: outlet ids 0, 3 and 5 are shown as 1, 4 and 6. */
  lemma TestOutletActionMessages()
    ensures TurnedOnMessage(0) == "Outlet 1 turned ON"
    ensures TurnedOffMessage(3) == "Outlet 4 turned OFF"
    ensures CycledMessage(5) == "Outlet 6 power cycled"
  {
    SmallNumbers();
  }

  /** The unit tests' state and rename messages for outlet 0. */
  lemma TestOutletQueryMessages()
    ensures StateMessage(0, true) == "Outlet 1 is ON"
    ensures RenamedMessage(0, "New Name") == "Outlet 1 renamed to 'New Name'"
  {
    SmallNumbers();
  }

  /** The unit test's plan: `on` for outlets 0, 2 and 4, in that order. */
  lemma TestBulkPlan()
    ensures Catalog.ExplicitPlan("on", [0, 2, 4]) == [On(0), On(2), On(4)]
  {
    Catalog.BulkExplicitInOrder("on", [0, 2, 4]);
  }

  /** The unit test's ids 0, 2 and 4, shown one-based as a Python list. */
  lemma TestBulkNumbers()
    ensures PyIntList(OneBased([0, 2, 4])) == "[1, 3, 5]"
  {
    assert OneBased([0, 2, 4]) == [1, 3, 5];
    assert IntToString(1) == "1" && IntToString(3) == "3" && IntToString(5) == "5" by {
      assert NatToString(1) == [Digit(1)] && NatToString(3) == [Digit(3)] && NatToString(5) == [Digit(5)];
    }
    assert IntStrings([1, 3, 5]) == ["1", "3", "5"];
    assert Join(", ", ["1", "3", "5"]) == "1, 3, 5" by {
      assert ["1", "3", "5"][1..] == ["3", "5"] && ["3", "5"][1..] == ["5"];
    }
  }

  lemma TestBulkPrefix()
    ensures BulkPrefix("on") == "Performed 'on' on outlets: "
  {
    assert "Performed '" + "on" == "Performed 'on";
    assert "Performed 'on" + "' on outlets: " == "Performed 'on' on outlets: ";
  }

  /** The unit test's message: the ids shown one-based, as a list. */
  lemma TestBulkMessage()
    ensures BulkListedMessage("on", [0, 2, 4]) == "Performed 'on' on outlets: [1, 3, 5]"
  {
    TestBulkNumbers();
    TestBulkPrefix();
    assert "Performed 'on' on outlets: " + "[1, 3, 5]" == "Performed 'on' on outlets: [1, 3, 5]";
  }

  /** The unit test of the explicit-list bulk operation: three `on` calls in list order, ids shown as [1, 3, 5]. */
  lemma TestBulkExplicit(lib: Library, h: seq<Call>)
    requires Catalog.Perform(lib, h, Catalog.BulkOutletOperation("on", Some([0, 2, 4]))).result.Success?
    ensures var s := Catalog.Perform(lib, h, Catalog.BulkOutletOperation("on", Some([0, 2, 4])));
      && s.calls == [On(0), On(2), On(4)]
      && s.result.value == Catalog.Message("Performed 'on' on outlets: [1, 3, 5]")
  {
    Catalog.PerformStopsAtFirstFault(lib, h, Catalog.BulkOutletOperation("on", Some([0, 2, 4])));
    TestBulkPlan();
    TestBulkMessage();
  }

  /** The unit test of the all-unlocked bulk operation: one delegated call with `locked=False`. */
  lemma TestBulkAll(lib: Library, h: seq<Call>)
    ensures Catalog.Perform(lib, h, Catalog.BulkOutletOperation("off", None)).calls == [Bulk(false, "off")]
  {
    Catalog.BulkAllUnlockedOneCall(lib, h, "off");
  }
}
