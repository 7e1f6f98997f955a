/**
 * The tool bodies as the transports run them, against a device handle that
 * answers and logs each call: each issues its calls in order, returns at the
 * first call that raises, and otherwise shapes the answers. Each is proved to
 * do exactly what `Catalog.Perform` says.
 */
module Tools {
  import opened Wrappers
  import opened Text
  import opened Config
  import opened PowerSwitch
  import opened Format
  import opened Catalog
  import opened Access

  /** The append loop of `get_all_outlet_states`: one line per state, in list order. */
  method StateLinesOf(states: seq<bool>) returns (lines: seq<string>)
    ensures lines == StateLines(states)
  {
    lines := [];
    var i := 0;
    while i < |states|
      invariant 0 <= i <= |states|
      invariant |lines| == i
      invariant forall k :: 0 <= k < i ==> lines[k] == StateLine(k, states[k])
    {
      lines := lines + [StateLine(i, states[i])];
      i := i + 1;
    }
  }

  /** The action a bulk operation applies to one outlet: `on`, `off`, `cycle`, or nothing for any other name. */
  method BulkAction(d: Device, action: string, id: int) returns (err: Option<Raised>)
    modifies d
    ensures d.log == old(d.log) + ActionCalls(action, id)
    ensures err == RunCalls(d.lib.raises, old(d.log), ActionCalls(action, id)).err
  {
    ghost var h := d.log;
    err := None;
    if action == "on" {
      err := d.Act(On(id));
    } else if action == "off" {
      err := d.Act(Off(id));
    } else if action == "cycle" {
      err := d.Act(Cycle(id));
    }
    ghost var a := ActionCalls(action, id);
    if a != [] {
      assert a == [a[0]] + [];
      RunCons(d.lib.raises, h, a[0], []);
    }
  }

  /** The explicit-list path of the bulk operation: the selected action on each id in turn. */
  method BulkExplicit(d: Device, action: string, ids: seq<int>) returns (r: Result<Payload, Raised>)
    modifies d
    ensures var s := Through(d.lib.raises, old(d.log), ExplicitPlan(action, ids), Message(BulkListedMessage(action, ids)));
      d.log == old(d.log) + s.calls && r == s.result
  {
    ghost var h := d.log;
    var k := 0;
    while k < |ids|
      invariant 0 <= k <= |ids|
      invariant RunCalls(d.lib.raises, h, ExplicitPlan(action, ids[..k])).err.None?
      invariant d.log == h + ExplicitPlan(action, ids[..k])
    {
      ghost var p, a := ExplicitPlan(action, ids[..k]), ActionCalls(action, ids[k]);
      BulkLoopStep(d.lib.raises, h, action, ids, k);
      var err := BulkAction(d, action, ids[k]);
      LogAppend(h, p, a);
      if err.Some? {
        assert RunCalls(d.lib.raises, h, ExplicitPlan(action, ids)) == Run(p + a, err);
        return Failure(err.value);
      }
      assert ExplicitPlan(action, ids[..k + 1]) == p + a;
      k := k + 1;
    }
    assert ids[..|ids|] == ids;
    r := Success(Message(BulkListedMessage(action, ids)));
  }

  /** `get_outlet_info`'s three reads: the name, the state and the lock flag. */
  method OutletInfo(d: Device, i: int) returns (r: Result<Payload, Raised>)
    modifies d
    ensures var s := Perform(d.lib, old(d.log), GetOutletInfo(i));
      d.log == old(d.log) + s.calls && r == s.result
  {
    ghost var h := d.log;
    var n, st, l := ReadName(i), ReadState(i), ReadLocked(i);
    assert [n, st, l] == [n] + [st, l] && [st, l] == [st] + [l] && [l] == [l] + [];
    RunCons(d.lib.raises, h, n, [st, l]);
    RunCons(d.lib.raises, h + [n], st, [l]);
    RunCons(d.lib.raises, h + [n, st], l, []);
    LogAppend(h, [n], [st]);
    LogAppend(h, [n, st], [l]);
    assert [n] + [st] == [n, st] && [n, st] + [l] == [n, st, l];
    var name := d.AskText(n);
    if name.Failure? {
      return Failure(name.error);
    }
    var on := d.AskTruth(st);
    if on.Failure? {
      return Failure(on.error);
    }
    var locked := d.AskTruth(l);
    if locked.Failure? {
      return Failure(locked.error);
    }
    r := Success(Record(InfoRecord(i, name.value, on.value, locked.value)));
  }

  /** `get_power_metrics`' four readings, in the order voltage, current, power, energy. */
  method PowerMetrics(d: Device) returns (r: Result<Payload, Raised>)
    modifies d
    ensures var s := Perform(d.lib, old(d.log), GetPowerMetrics);
      d.log == old(d.log) + s.calls && r == s.result
  {
    ghost var h := d.log;
    var v, c, p, e := ReadMeter(Voltage), ReadMeter(Current), ReadMeter(Power), ReadMeter(Energy);
    ThroughFour(d.lib.raises, h, v, c, p, e, PayloadOf(d.lib, h, GetPowerMetrics));
    assert h + [v] + [c] == h + [v, c] by { LogAppend(h, [v], [c]); }
    assert h + [v, c] + [p] == h + [v, c, p] by { LogAppend(h, [v, c], [p]); }
    assert h + [v, c, p] + [e] == h + [v, c, p, e] by { LogAppend(h, [v, c, p], [e]); }
    var voltage := d.AskValue(v);
    if voltage.Failure? {
      return Failure(voltage.error);
    }
    var current := d.AskValue(c);
    if current.Failure? {
      return Failure(current.error);
    }
    var power := d.AskValue(p);
    if power.Failure? {
      return Failure(power.error);
    }
    var energy := d.AskValue(e);
    if energy.Failure? {
      return Failure(energy.error);
    }
    r := Success(Record(MetricsRecord(voltage.value, current.value, power.value, energy.value)));
  }

  /** A tool whose only call answers nothing: the call, then the fixed payload. */
  method ActOnce(d: Device, c: Call, p: Payload) returns (r: Result<Payload, Raised>)
    modifies d
    ensures d.log == old(d.log) + [c]
    ensures r == Through(d.lib.raises, old(d.log), [c], p).result
  {
    ThroughOne(d.lib.raises, d.log, c, p);
    var err := d.Act(c);
    r := if err.Some? then Failure(err.value) else Success(p);
  }

  /** A tool whose only call answers a success flag, shaped into its status message. */
  method AskStatus(d: Device, c: Call, entry: int, cmd: EntryCommand) returns (r: Result<Payload, Raised>)
    modifies d
    ensures d.log == old(d.log) + [c]
    ensures r == Through(d.lib.raises, old(d.log), [c], Message(EntryStatusMessage(entry, cmd, d.lib.truth(old(d.log), c)))).result
  {
    ThroughOne(d.lib.raises, d.log, c, Message(EntryStatusMessage(entry, cmd, d.lib.truth(d.log, c))));
    var ok := d.AskTruth(c);
    r := if ok.Failure? then Failure(ok.error) else Success(Message(EntryStatusMessage(entry, cmd, ok.value)));
  }

  /** A tool whose only call answers a library value, passed through as a record. */
  method AskRecord(d: Device, c: Call) returns (r: Result<Payload, Raised>)
    modifies d
    ensures d.log == old(d.log) + [c]
    ensures r == Through(d.lib.raises, old(d.log), [c], Record(d.lib.value(old(d.log), c))).result
  {
    ThroughOne(d.lib.raises, d.log, c, Record(d.lib.value(d.log, c)));
    var v := d.AskValue(c);
    r := if v.Failure? then Failure(v.error) else Success(Record(v.value));
  }

  /** Adding an entry: the call, then the new entry's reply with the host and outlet it was asked for. */
  method AskAdded(d: Device, c: Call, host: string, i: int) returns (r: Result<Payload, Raised>)
    modifies d
    ensures d.log == old(d.log) + [c]
    ensures r == Through(d.lib.raises, old(d.log), [c], Added(host, i, d.lib.value(old(d.log), c))).result
  {
    ThroughOne(d.lib.raises, d.log, c, Added(host, i, d.lib.value(d.log, c)));
    var reply := d.AskValue(c);
    r := if reply.Failure? then Failure(reply.error) else Success(Added(host, i, reply.value));
  }

  /** Listing the entries: the call, then the entries it answers. */
  method AskListing(d: Device) returns (r: Result<Payload, Raised>)
    modifies d
    ensures d.log == old(d.log) + [ListEntries]
    ensures r == Through(d.lib.raises, old(d.log), [ListEntries], Listed(d.lib.entries(old(d.log)))).result
  {
    ThroughOne(d.lib.raises, d.log, ListEntries, Listed(d.lib.entries(d.log)));
    var entries := d.AskEntries();
    r := if entries.Failure? then Failure(entries.error) else Success(Listed(entries.value));
  }

  /** The AutoPing tools. */
  predicate IsAutoping(op: Op)
  {
    op.AutopingAddEntry? || op.AutopingListEntries? || op.AutopingGetEntry? || IsEntryStatus(op)
  }

  /** The AutoPing tools that answer whether the entry command succeeded. */
  predicate IsEntryStatus(op: Op)
  {
    op.AutopingUpdateEntry? || op.AutopingDeleteEntry? || op.AutopingEnableEntry? || op.AutopingDisableEntry?
  }

  /** Runs one outlet, meter or device tool. */
  method ExecuteOutlets(d: Device, op: Op) returns (r: Result<Payload, Raised>)
    requires !IsAutoping(op)
    modifies d
    ensures var s := Perform(d.lib, old(d.log), op);
      d.log == old(d.log) + s.calls && r == s.result
  {
    ghost var h := d.log;
    match op
    case OutletOn(i) =>
      r := ActOnce(d, On(i), Message(TurnedOnMessage(i)));
    case OutletOff(i) =>
      r := ActOnce(d, Off(i), Message(TurnedOffMessage(i)));
    case OutletCycle(i) =>
      r := ActOnce(d, Cycle(i), Message(CycledMessage(i)));
    case GetOutletState(i) =>
      ThroughOne(d.lib.raises, h, ReadState(i), PayloadOf(d.lib, h, op));
      var on := d.AskTruth(ReadState(i));
      r := if on.Failure? then Failure(on.error) else Success(Message(StateMessage(i, on.value)));
    case GetAllOutletStates =>
      ThroughOne(d.lib.raises, h, ReadAllStates, PayloadOf(d.lib, h, op));
      var states := d.AskStates();
      if states.Failure? {
        r := Failure(states.error);
      } else {
        var lines := StateLinesOf(states.value);
        r := Success(Message(Join("\n", lines)));
      }
    case GetOutletInfo(i) =>
      r := OutletInfo(d, i);
    case SetOutletName(i, n) =>
      r := ActOnce(d, SetName(i, n), Message(RenamedMessage(i, n)));
    case GetPowerMetrics =>
      r := PowerMetrics(d);
    case GetDeviceInfo =>
      r := AskRecord(d, ReadInfo);
    case BulkOutletOperation(a, ids) =>
      if ids.Some? {
        r := BulkExplicit(d, a, ids.value);
      } else {
        r := ActOnce(d, Bulk(false, a), Message(BulkAllMessage(a)));
      }
  }

  /** Runs one AutoPing tool that adds, lists or reads entries. */
  method ExecuteEntries(d: Device, op: Op) returns (r: Result<Payload, Raised>)
    requires IsAutoping(op) && !IsEntryStatus(op)
    modifies d
    ensures var s := Perform(d.lib, old(d.log), op);
      d.log == old(d.log) + s.calls && r == s.result
  {
    match op
    case AutopingAddEntry(host, i, en, iv, rt) =>
      r := AskAdded(d, AddEntry(host, i, en, iv, rt), host, i);
    case AutopingListEntries =>
      r := AskListing(d);
    case AutopingGetEntry(e) =>
      r := AskRecord(d, GetEntry(e));
  }

  /** Runs one AutoPing tool that updates, deletes, enables or disables an entry. */
  method ExecuteEntryStatus(d: Device, op: Op) returns (r: Result<Payload, Raised>)
    requires IsEntryStatus(op)
    modifies d
    ensures var s := Perform(d.lib, old(d.log), op);
      d.log == old(d.log) + s.calls && r == s.result
  {
    match op
    case AutopingUpdateEntry(e, nh, no, ne, ni, nr) =>
      r := AskStatus(d, UpdateEntry(e, nh, no, ne, ni, nr), e, Update);
    case AutopingDeleteEntry(e) =>
      r := AskStatus(d, DeleteEntry(e), e, Delete);
    case AutopingEnableEntry(e) =>
      r := AskStatus(d, EnableEntry(e), e, Enable);
    case AutopingDisableEntry(e) =>
      r := AskStatus(d, DisableEntry(e), e, Disable);
  }

  /** Runs one tool on the device. */
  method Execute(d: Device, op: Op) returns (r: Result<Payload, Raised>)
    modifies d
    ensures var s := Perform(d.lib, old(d.log), op);
      d.log == old(d.log) + s.calls && r == s.result
  {
    if IsEntryStatus(op) {
      r := ExecuteEntryStatus(d, op);
    } else if IsAutoping(op) {
      r := ExecuteEntries(d, op);
    } else {
      r := ExecuteOutlets(d, op);
    }
  }

  /** A tool body inside its `try`: obtain the device through the accessor, then run the tool on it. */
  method Invoke(acc: DeviceAccessor, env: Env, op: Op) returns (r: Result<Payload, Raised>)
    requires acc.Valid()
    modifies acc, acc.handle
    ensures acc.Valid()
    ensures var s := Serve(acc.lib, old(acc.Snapshot()), env, op);
      acc.Snapshot() == s.after && r == s.result
  {
    var got := acc.GetDevice(env);
    if got.Failure? {
      return Failure(got.error);
    }
    var d := got.value;
    r := Execute(d, op);
  }
}
