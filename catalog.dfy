/**
 * The tool catalog shared by both transports: for each tool, the fixed
 * sequence of device calls it issues (its plan) and what it returns when none
 * of them raises. A tool issues its plan one call at a time and stops at the
 * first call that raises; the raised error is then what it returns.
 * Both transports make the same calls in the same order for the same tool
 * (src/power_switch_pro_mcp/server.py:343-505 and
 * src/power_switch_pro_mcp/http_server.py:59-463); they differ only in how
 * arguments arrive and in how the outcome is rendered.
 */
module Catalog {
  import opened Wrappers
  import opened Text
  import opened Config
  import opened PowerSwitch
  import opened Format

  /** A tool invocation with its arguments already read. */
  datatype Op =
    | OutletOn(outlet: int)
    | OutletOff(outlet: int)
    | OutletCycle(outlet: int)
    | GetOutletState(outlet: int)
    | GetAllOutletStates
    | GetOutletInfo(outlet: int)
    | SetOutletName(outlet: int, name: string)
    | GetPowerMetrics
    | GetDeviceInfo
    | BulkOutletOperation(action: string, outletIds: Option<seq<int>>)
    | AutopingAddEntry(host: string, outlet: int, enabled: bool, interval: int, retries: int)
    | AutopingListEntries
    | AutopingGetEntry(entry: int)
    | AutopingUpdateEntry(entry: int, newHost: Option<string>, newOutlet: Option<int>, newEnabled: Option<bool>,
                          newInterval: Option<int>, newRetries: Option<int>)
    | AutopingDeleteEntry(entry: int)
    | AutopingEnableEntry(entry: int)
    | AutopingDisableEntry(entry: int)

  /**
   * What a tool produces before the transport renders it: a finished text, a
   * record, the reply of `add_entry` (rendered by `json.dumps` on one transport
   * and `str` on the other), or the entry list (formatted differently by each).
   */
  datatype Payload =
    | Message(text: string)
    | Record(value: JsonValue)
    | Added(host: string, outlet: int, reply: JsonValue)
    | Listed(entries: seq<Entry>)

  /** `add_entry`'s defaults for the optional settings, the same on both transports. */
  const DefaultEnabled := true
  const DefaultInterval := 60
  const DefaultRetries := 3

  /** The given value, or the default when it is omitted. */
  function OrDefault<T>(o: Option<T>, d: T): T
  {
    if o.Some? then o.value else d
  }

  /** The add-entry tool for a call whose optional settings may be omitted. */
  function AddEntryRequest(host: string, outletId: int, enabled: Option<bool>, interval: Option<int>,
                           retries: Option<int>): Op
  {
    AutopingAddEntry(host, outletId, OrDefault(enabled, DefaultEnabled), OrDefault(interval, DefaultInterval),
                     OrDefault(retries, DefaultRetries))
  }

  /**
   * An omitted setting takes its default (enabled, every 60 seconds, 3
   * retries) and a given one is passed on unchanged.
   */
  lemma AddEntryRequestDefaults(host: string, outletId: int, enabled: Option<bool>, interval: Option<int>,
                                retries: Option<int>)
    ensures var op := AddEntryRequest(host, outletId, enabled, interval, retries);
      && op.host == host && op.outlet == outletId
      && op.enabled == (if enabled.Some? then enabled.value else true)
      && op.interval == (if interval.Some? then interval.value else 60)
      && op.retries == (if retries.Some? then retries.value else 3)
  {
  }

  /** The calls a tool issued and its outcome. */
  datatype Step = Step(calls: seq<Call>, result: Result<Payload, Raised>)

  /** The mutator a bulk action name selects; any other name selects none. */
  function ActionCalls(action: string, outlet: int): seq<Call>
  {
    if action == "on" then [On(outlet)]
    else if action == "off" then [Off(outlet)]
    else if action == "cycle" then [Cycle(outlet)]
    else []
  }

  /** The calls of a bulk operation over an explicit list, one id after another. */
  function ExplicitPlan(action: string, ids: seq<int>): seq<Call>
  {
    if ids == [] then [] else ExplicitPlan(action, ids[..|ids| - 1]) + ActionCalls(action, ids[|ids| - 1])
  }

  const MeterPlan := [ReadMeter(Voltage), ReadMeter(Current), ReadMeter(Power), ReadMeter(Energy)]

  /** The fixed sequence of device calls each tool issues. */
  function PlanOf(op: Op): seq<Call>
  {
    match op
    case OutletOn(i) => [On(i)]
    case OutletOff(i) => [Off(i)]
    case OutletCycle(i) => [Cycle(i)]
    case GetOutletState(i) => [ReadState(i)]
    case GetAllOutletStates => [ReadAllStates]
    case GetOutletInfo(i) => [ReadName(i), ReadState(i), ReadLocked(i)]
    case SetOutletName(i, n) => [SetName(i, n)]
    case GetPowerMetrics => MeterPlan
    case GetDeviceInfo => [ReadInfo]
    case BulkOutletOperation(a, ids) =>
      if ids.Some? then ExplicitPlan(a, ids.value) else [Bulk(false, a)]
    case AutopingAddEntry(host, i, en, iv, rt) => [AddEntry(host, i, en, iv, rt)]
    case AutopingListEntries => [ListEntries]
    case AutopingGetEntry(e) => [GetEntry(e)]
    case AutopingUpdateEntry(e, nh, no, ne, ni, nr) => [UpdateEntry(e, nh, no, ne, ni, nr)]
    case AutopingDeleteEntry(e) => [DeleteEntry(e)]
    case AutopingEnableEntry(e) => [EnableEntry(e)]
    case AutopingDisableEntry(e) => [DisableEntry(e)]
  }

  /** What a tool returns when no call of its plan raises, from the answers the device gave. */
  function PayloadOf(lib: Library, h: seq<Call>, op: Op): Payload
  {
    match op
    case OutletOn(i) => Message(TurnedOnMessage(i))
    case OutletOff(i) => Message(TurnedOffMessage(i))
    case OutletCycle(i) => Message(CycledMessage(i))
    case GetOutletState(i) => Message(StateMessage(i, lib.truth(h, ReadState(i))))
    case GetAllOutletStates => Message(AllStatesText(lib.states(h)))
    case GetOutletInfo(i) =>
      var n, s, l := ReadName(i), ReadState(i), ReadLocked(i);
      Record(InfoRecord(i, lib.text(h, n), lib.truth(h + [n], s), lib.truth(h + [n, s], l)))
    case SetOutletName(i, n) => Message(RenamedMessage(i, n))
    case GetPowerMetrics =>
      var v, c, p, e := MeterPlan[0], MeterPlan[1], MeterPlan[2], MeterPlan[3];
      Record(MetricsRecord(lib.value(h, v), lib.value(h + [v], c), lib.value(h + [v, c], p), lib.value(h + [v, c, p], e)))
    case GetDeviceInfo => Record(lib.value(h, ReadInfo))
    case BulkOutletOperation(a, ids) =>
      if ids.Some? then Message(BulkListedMessage(a, ids.value)) else Message(BulkAllMessage(a))
    case AutopingAddEntry(host, i, en, iv, rt) => Added(host, i, lib.value(h, AddEntry(host, i, en, iv, rt)))
    case AutopingListEntries => Listed(lib.entries(h))
    case AutopingGetEntry(e) => Record(lib.value(h, GetEntry(e)))
    case AutopingUpdateEntry(e, nh, no, ne, ni, nr) =>
      Message(EntryStatusMessage(e, Update, lib.truth(h, UpdateEntry(e, nh, no, ne, ni, nr))))
    case AutopingDeleteEntry(e) => Message(EntryStatusMessage(e, Delete, lib.truth(h, DeleteEntry(e))))
    case AutopingEnableEntry(e) => Message(EntryStatusMessage(e, Enable, lib.truth(h, EnableEntry(e))))
    case AutopingDisableEntry(e) => Message(EntryStatusMessage(e, Disable, lib.truth(h, DisableEntry(e))))
  }

  /** Issues `plan` after `h` up to the first raise; returns `p` when nothing raised. */
  function Through(raises: (seq<Call>, Call) -> Option<Raised>, h: seq<Call>, plan: seq<Call>, p: Payload): Step
  {
    var run := RunCalls(raises, h, plan);
    Step(run.issued, if run.err.Some? then Failure(run.err.value) else Success(p))
  }

  /** A tool invoked on a device whose call log so far is `h`. */
  function Perform(lib: Library, h: seq<Call>, op: Op): Step
  {
    Through(lib.raises, h, PlanOf(op), PayloadOf(lib, h, op))
  }

  /** A plan of one call: the call is issued, and either raises or answers. */
  lemma ThroughOne(raises: (seq<Call>, Call) -> Option<Raised>, h: seq<Call>, c: Call, p: Payload)
    ensures Through(raises, h, [c], p) ==
      Step([c], if raises(h, c).Some? then Failure(raises(h, c).value) else Success(p))
  {
    assert [c][1..] == [];
  }

  /** One step of a plan: its first call either raises and ends it, or is followed by the rest. */
  lemma ThroughCons(raises: (seq<Call>, Call) -> Option<Raised>, h: seq<Call>, c: Call, rest: seq<Call>, q: Payload)
    ensures Through(raises, h, [c] + rest, q) ==
      if raises(h, c).Some? then Step([c], Failure(raises(h, c).value))
      else var t := Through(raises, h + [c], rest, q); Step([c] + t.calls, t.result)
  {
    RunCons(raises, h, c, rest);
  }

  /** A plan of two calls unrolled. */
  lemma ThroughTwo(raises: (seq<Call>, Call) -> Option<Raised>, h: seq<Call>, p: Call, e: Call, q: Payload)
    ensures Through(raises, h, [p, e], q) ==
        if raises(h, p).Some? then Step([p], Failure(raises(h, p).value))
        else if raises(h + [p], e).Some? then Step([p, e], Failure(raises(h + [p], e).value))
        else Step([p, e], Success(q))
  {
    assert [p, e] == [p] + [e];
    ThroughCons(raises, h, p, [e], q);
    ThroughOne(raises, h + [p], e, q);
  }

  /** A plan of three calls unrolled. */
  lemma ThroughThree(raises: (seq<Call>, Call) -> Option<Raised>, h: seq<Call>, c: Call, p: Call, e: Call, q: Payload)
    ensures Through(raises, h, [c, p, e], q) ==
        if raises(h, c).Some? then Step([c], Failure(raises(h, c).value))
        else if raises(h + [c], p).Some? then Step([c, p], Failure(raises(h + [c], p).value))
        else if raises(h + [c, p], e).Some? then Step([c, p, e], Failure(raises(h + [c, p], e).value))
        else Step([c, p, e], Success(q))
  {
    assert [c, p, e] == [c] + [p, e];
    ThroughCons(raises, h, c, [p, e], q);
    ThroughTwo(raises, h + [c], p, e, q);
    assert [c] + [p] == [c, p] && [c] + [p, e] == [c, p, e];
    assert h + [c] + [p] == h + [c, p] by { LogAppend(h, [c], [p]); }
  }

  /** A plan of four calls unrolled: each call is issued after the ones before it, up to the first raise. */
  lemma ThroughFour(raises: (seq<Call>, Call) -> Option<Raised>, h: seq<Call>, v: Call, c: Call, p: Call, e: Call, q: Payload)
    ensures Through(raises, h, [v, c, p, e], q) ==
        if raises(h, v).Some? then Step([v], Failure(raises(h, v).value))
        else if raises(h + [v], c).Some? then Step([v, c], Failure(raises(h + [v], c).value))
        else if raises(h + [v, c], p).Some? then Step([v, c, p], Failure(raises(h + [v, c], p).value))
        else if raises(h + [v, c, p], e).Some? then Step([v, c, p, e], Failure(raises(h + [v, c, p], e).value))
        else Step([v, c, p, e], Success(q))
  {
    assert [v, c, p, e] == [v] + [c, p, e];
    ThroughCons(raises, h, v, [c, p, e], q);
    ThroughThree(raises, h + [v], c, p, e, q);
    assert [v] + [c] == [v, c] && [v] + [c, p] == [v, c, p] && [v] + [c, p, e] == [v, c, p, e];
    assert h + [v] + [c] == h + [v, c] by { LogAppend(h, [v], [c]); }
    assert h + [v] + [c, p] == h + [v, c, p] by { LogAppend(h, [v], [c, p]); }
  }

  /**
   * Every tool follows its plan and stops at the first fault: the calls it
   * issued are a prefix of the plan; it succeeds exactly when it issued the
   * whole plan without a raise, and then it returns the plan's payload;
   * otherwise its last call raised the error it returns and none before did.
   */
  lemma PerformStopsAtFirstFault(lib: Library, h: seq<Call>, op: Op)
    ensures var s := Perform(lib, h, op); var plan := PlanOf(op);
      && |s.calls| <= |plan| && s.calls == plan[..|s.calls|]
      && (s.result.Success? ==>
            && s.calls == plan && s.result.value == PayloadOf(lib, h, op)
            && forall k :: 0 <= k < |plan| ==> lib.raises(h + plan[..k], plan[k]).None?)
      && (s.result.Failure? ==>
            var n := |s.calls| - 1;
            && n >= 0
            && lib.raises(h + s.calls[..n], s.calls[n]) == Some(s.result.error)
            && forall k :: 0 <= k < n ==> lib.raises(h + s.calls[..k], s.calls[k]).None?)
  {
    var run := RunCalls(lib.raises, h, PlanOf(op));
    if run.err.Some? {
      RunStopsAtFirstFault(lib.raises, h, PlanOf(op));
    } else {
      RunCleanNeverRaised(lib.raises, h, PlanOf(op));
    }
  }

  /** The single mutator a bulk action selects, for the three known actions. */
  function KnownAction(action: string, outlet: int): Call
    requires action == "on" || action == "off" || action == "cycle"
  {
    match action
    case "on" => On(outlet)
    case "off" => Off(outlet)
    case _ => Cycle(outlet)
  }

  lemma {:induction false} ExplicitPlanAppend(action: string, xs: seq<int>, ys: seq<int>)
    ensures ExplicitPlan(action, xs + ys) == ExplicitPlan(action, xs) + ExplicitPlan(action, ys)
    decreases |ys|
  {
    if ys == [] {
      assert xs + ys == xs;
    } else {
      var zs, init, last := xs + ys, ys[..|ys| - 1], ys[|ys| - 1];
      assert zs[..|zs| - 1] == xs + init && zs[|zs| - 1] == last;
      ExplicitPlanAppend(action, xs, init);
      var a := ActionCalls(action, last);
      assert ExplicitPlan(action, zs) == ExplicitPlan(action, xs) + ExplicitPlan(action, init) + a;
      LogAppend(ExplicitPlan(action, xs), ExplicitPlan(action, init), a);
    }
  }

  /** The explicit plan of one more id is the plan so far followed by that id's action. */
  lemma ExplicitPlanStep(action: string, ids: seq<int>, k: nat)
    requires k < |ids|
    ensures ExplicitPlan(action, ids[..k + 1]) == ExplicitPlan(action, ids[..k]) + ActionCalls(action, ids[k])
  {
    assert ids[..k + 1][..k] == ids[..k];
  }

  /** An action of at most one call is issued whole, whether or not it raises. */
  lemma ActionIssued(raises: (seq<Call>, Call) -> Option<Raised>, h: seq<Call>, action: string, outlet: int)
    ensures RunCalls(raises, h, ActionCalls(action, outlet)).issued == ActionCalls(action, outlet)
  {
    var a := ActionCalls(action, outlet);
    if a != [] {
      assert a == [a[0]] + [];
      RunCons(raises, h, a[0], []);
    }
  }

  /** A run that raises in its middle part never reaches what follows it. */
  lemma RunStopsInside(raises: (seq<Call>, Call) -> Option<Raised>, h: seq<Call>, p: seq<Call>, a: seq<Call>, rest: seq<Call>)
    requires RunCalls(raises, h, p).err.None?
    requires RunCalls(raises, h + p, a).err.Some? && RunCalls(raises, h + p, a).issued == a
    ensures RunCalls(raises, h, p + a + rest) == Run(p + a, RunCalls(raises, h + p, a).err)
  {
    RunAppend(raises, h, p, a);
    RunAppend(raises, h, p + a, rest);
  }

  /**
   * One id of the explicit-list loop: the plan grows by that id's action; if
   * the action raised, the whole operation's run stops right there.
   */
  lemma BulkLoopStep(raises: (seq<Call>, Call) -> Option<Raised>, h: seq<Call>, action: string, ids: seq<int>, k: nat)
    requires k < |ids|
    requires RunCalls(raises, h, ExplicitPlan(action, ids[..k])).err.None?
    ensures var p := ExplicitPlan(action, ids[..k]); var a := ActionCalls(action, ids[k]);
      var ra := RunCalls(raises, h + p, a);
      && ExplicitPlan(action, ids[..k + 1]) == p + a
      && ra.issued == a
      && (ra.err.None? ==> RunCalls(raises, h, p + a).err.None?)
      && (ra.err.Some? ==> RunCalls(raises, h, ExplicitPlan(action, ids)) == Run(p + a, ra.err))
  {
    var p := ExplicitPlan(action, ids[..k]);
    var a := ActionCalls(action, ids[k]);
    ExplicitPlanStep(action, ids, k);
    ActionIssued(raises, h + p, action, ids[k]);
    RunAppend(raises, h, p, a);
    if RunCalls(raises, h + p, a).err.Some? {
      var rest := ids[k + 1..];
      assert ids[..k + 1] + rest == ids;
      ExplicitPlanAppend(action, ids[..k + 1], rest);
      RunStopsInside(raises, h, p, a, ExplicitPlan(action, rest));
    }
  }

  /** With a known action, the explicit-list bulk operation issues one action per listed id, in list order. */
  lemma {:induction false} BulkExplicitInOrder(action: string, ids: seq<int>)
    requires action == "on" || action == "off" || action == "cycle"
    ensures |ExplicitPlan(action, ids)| == |ids|
    ensures forall k :: 0 <= k < |ids| ==> ExplicitPlan(action, ids)[k] == KnownAction(action, ids[k])
    decreases |ids|
  {
    if ids != [] {
      BulkExplicitInOrder(action, ids[..|ids| - 1]);
      assert ActionCalls(action, ids[|ids| - 1]) == [KnownAction(action, ids[|ids| - 1])];
    }
  }

  lemma {:induction false} UnknownActionPlanEmpty(action: string, ids: seq<int>)
    requires action != "on" && action != "off" && action != "cycle"
    ensures ExplicitPlan(action, ids) == []
    decreases |ids|
  {
    if ids != [] {
      UnknownActionPlanEmpty(action, ids[..|ids| - 1]);
    }
  }

  /** An action name outside on/off/cycle makes no call at all, yet reports the operation as performed. */
  lemma BulkUnknownActionNoCalls(lib: Library, h: seq<Call>, action: string, ids: seq<int>)
    requires action != "on" && action != "off" && action != "cycle"
    ensures Perform(lib, h, BulkOutletOperation(action, Some(ids))) == Step([], Success(Message(BulkListedMessage(action, ids))))
  {
    UnknownActionPlanEmpty(action, ids);
  }

  /** Without ids, the bulk operation makes exactly one delegated call for the unlocked outlets, and no per-outlet call. */
  lemma BulkAllUnlockedOneCall(lib: Library, h: seq<Call>, action: string)
    ensures var s := Perform(lib, h, BulkOutletOperation(action, None));
      && s.calls == [Bulk(false, action)]
      && (s.result.Success? <==> lib.raises(h, Bulk(false, action)).None?)
      && (s.result.Success? ==> s.result.value == Message(BulkAllMessage(action)))
  {
    ThroughOne(lib.raises, h, Bulk(false, action), Message(BulkAllMessage(action)));
  }

  /**
   * When no call raises, the explicit-list bulk operation acts on every listed id
   * in order, and its message lists the ids, each plus one, in the same order.
   */
  lemma BulkExplicitOutcome(lib: Library, h: seq<Call>, action: string, ids: seq<int>)
    requires action == "on" || action == "off" || action == "cycle"
    requires Perform(lib, h, BulkOutletOperation(action, Some(ids))).result.Success?
    ensures var s := Perform(lib, h, BulkOutletOperation(action, Some(ids)));
      && |s.calls| == |ids|
      && (forall k :: 0 <= k < |ids| ==> s.calls[k] == KnownAction(action, ids[k]))
      && s.result.value.Message?
      && ParseIntList(s.result.value.text[|BulkPrefix(action)|..]) == Some(OneBased(ids))
  {
    BulkExplicitInOrder(action, ids);
    BulkListedMessageLists(action, ids);
  }

  /** The three outlet actions each issue the one matching call on the given outlet. */
  lemma OutletActionsIssueOneCall(lib: Library, h: seq<Call>, op: Op)
    requires op.OutletOn? || op.OutletOff? || op.OutletCycle?
    ensures var s := Perform(lib, h, op);
      var c := if op.OutletOn? then On(op.outlet) else if op.OutletOff? then Off(op.outlet) else Cycle(op.outlet);
      && s.calls == [c]
      && (s.result.Success? <==> lib.raises(h, c).None?)
      && (s.result.Success? ==> s.result.value == Message(OutletLabel(op.outlet) +
            if op.OutletOn? then " turned ON" else if op.OutletOff? then " turned OFF" else " power cycled"))
  {
    ThroughOne(lib.raises, h, PlanOf(op)[0], PayloadOf(lib, h, op));
  }

  /** A call that only reads from the device. */
  predicate IsQuery(c: Call)
  {
    c.ReadState? || c.ReadName? || c.ReadLocked? || c.ReadAllStates? || c.ReadMeter? || c.ReadInfo? ||
    c.ListEntries? || c.GetEntry?
  }

  /** The tools that only report. */
  predicate IsReport(op: Op)
  {
    op.GetOutletState? || op.GetAllOutletStates? || op.GetOutletInfo? || op.GetPowerMetrics? ||
    op.GetDeviceInfo? || op.AutopingListEntries? || op.AutopingGetEntry?
  }

  lemma ReportPlanQueries(op: Op)
    requires IsReport(op)
    ensures forall k :: 0 <= k < |PlanOf(op)| ==> IsQuery(PlanOf(op)[k])
  {
  }

  lemma OtherPlanMutates(op: Op)
    requires !IsReport(op) && PlanOf(op) != []
    ensures !IsQuery(PlanOf(op)[0])
  {
    match op
    case BulkOutletOperation(a, ids) =>
      if ids.Some? {
        if a == "on" || a == "off" || a == "cycle" {
          BulkExplicitInOrder(a, ids.value);
        } else {
          UnknownActionPlanEmpty(a, ids.value);
        }
      }
    case OutletOn(_) =>
    case OutletOff(_) =>
    case OutletCycle(_) =>
    case SetOutletName(_, _) =>
    case AutopingAddEntry(_, _, _, _, _) =>
    case AutopingUpdateEntry(_, _, _, _, _, _) =>
    case AutopingDeleteEntry(_) =>
    case AutopingEnableEntry(_) =>
    case AutopingDisableEntry(_) =>
  }

  /** Reporting tools change nothing on the device: every call they issue is a query, and every other tool starts with a mutator. */
  lemma ReportsOnlyQuery(lib: Library, h: seq<Call>, op: Op)
    ensures IsReport(op) ==> forall k :: 0 <= k < |Perform(lib, h, op).calls| ==> IsQuery(Perform(lib, h, op).calls[k])
    ensures !IsReport(op) && Perform(lib, h, op).calls != [] ==> !IsQuery(Perform(lib, h, op).calls[0])
  {
    PerformStopsAtFirstFault(lib, h, op);
    var s := Perform(lib, h, op);
    if IsReport(op) {
      ReportPlanQueries(op);
    } else if s.calls != [] {
      OtherPlanMutates(op);
    }
  }

  /** `get_outlet_info`'s record keeps the 0-based id, and its state word follows the state read. */
  lemma InfoRecordFields(outletId: int, name: string, on: bool, locked: bool)
    ensures var rec := InfoRecord(outletId, name, on, locked);
      && Field(rec, "id") == Some(JInt(outletId))
      && Field(rec, "name") == Some(JStr(name))
      && (Field(rec, "state") == Some(JStr("ON")) <==> on)
      && (Field(rec, "state") == Some(JStr("OFF")) <==> !on)
      && Field(rec, "locked") == Some(JBool(locked))
      && Field(rec, "error") == None
  {
    var fs := InfoRecord(outletId, name, on, locked).fields;
    var f1, f2, f3 := fs[1..], fs[1..][1..], fs[1..][1..][1..];
    assert f1[0].0 == "name" && f2[0].0 == "state" && f3[0].0 == "locked" && f3[1..] == [];
    assert "name" != "id" && "state" != "id" && "state" != "name";
    assert "locked" != "id" && "locked" != "name" && "locked" != "state";
    assert "error" != "id" && "error" != "name" && "error" != "state" && "error" != "locked";
    assert FieldIn(fs, "name") == FieldIn(f1, "name") == Some(JStr(name));
    assert FieldIn(fs, "state") == FieldIn(f1, "state") == FieldIn(f2, "state") == Some(JStr(StateText(on)));
    assert FieldIn(fs, "locked") == FieldIn(f1, "locked") == FieldIn(f2, "locked") == FieldIn(f3, "locked");
    assert FieldIn(fs, "error") == FieldIn(f1, "error") == FieldIn(f2, "error") == FieldIn(f3, "error");
    assert FieldIn(f3, "error") == FieldIn(f3[1..], "error") == None;
  }

  /** `get_power_metrics`' record has exactly the keys voltage_v, current_a, power_w and energy_kwh, each with its reading. */
  lemma MetricsRecordFields(voltage: JsonValue, current: JsonValue, power: JsonValue, energy: JsonValue, key: string)
    ensures var rec := MetricsRecord(voltage, current, power, energy);
      && Field(rec, "voltage_v") == Some(voltage)
      && Field(rec, "current_a") == Some(current)
      && Field(rec, "power_w") == Some(power)
      && Field(rec, "energy_kwh") == Some(energy)
      && (Field(rec, key).Some? <==> key in {"voltage_v", "current_a", "power_w", "energy_kwh"})
  {
    var fs := MetricsRecord(voltage, current, power, energy).fields;
    var f1, f2, f3 := fs[1..], fs[1..][1..], fs[1..][1..][1..];
    assert f1[0].0 == "current_a" && f2[0].0 == "power_w" && f3[0].0 == "energy_kwh" && f3[1..] == [];
    assert "current_a" != "voltage_v" && "power_w" != "voltage_v" && "power_w" != "current_a";
    assert "energy_kwh" != "voltage_v" && "energy_kwh" != "current_a" && "energy_kwh" != "power_w";
    assert FieldIn(fs, "current_a") == FieldIn(f1, "current_a") == Some(current);
    assert FieldIn(fs, "power_w") == FieldIn(f1, "power_w") == FieldIn(f2, "power_w") == Some(power);
    assert FieldIn(fs, "energy_kwh") == FieldIn(f1, "energy_kwh") == FieldIn(f2, "energy_kwh") == FieldIn(f3, "energy_kwh");
    if key != "voltage_v" {
      assert FieldIn(fs, key) == FieldIn(f1, key);
      if key != "current_a" {
        assert FieldIn(f1, key) == FieldIn(f2, key);
        if key != "power_w" {
          assert FieldIn(f2, key) == FieldIn(f3, key);
          if key != "energy_kwh" {
            assert FieldIn(f3, key) == FieldIn(f3[1..], key) == None;
          }
        }
      }
    }
  }

  /**
   * `get_power_metrics` reads voltage, current, power and energy in that
   * order; when none raises, its record carries each reading under its key.
   */
  lemma PowerMetricsReadings(lib: Library, h: seq<Call>)
    ensures var s := Perform(lib, h, GetPowerMetrics);
      var v, c, p, e := ReadMeter(Voltage), ReadMeter(Current), ReadMeter(Power), ReadMeter(Energy);
      && s.calls == [v, c, p, e][..|s.calls|]
      && (s.result.Success? ==>
            && s.result.value.Record?
            && Field(s.result.value.value, "voltage_v") == Some(lib.value(h, v))
            && Field(s.result.value.value, "current_a") == Some(lib.value(h + [v], c))
            && Field(s.result.value.value, "power_w") == Some(lib.value(h + [v, c], p))
            && Field(s.result.value.value, "energy_kwh") == Some(lib.value(h + [v, c, p], e)))
  {
    PerformStopsAtFirstFault(lib, h, GetPowerMetrics);
    var v, c, p, e := ReadMeter(Voltage), ReadMeter(Current), ReadMeter(Power), ReadMeter(Energy);
    MetricsRecordFields(lib.value(h, v), lib.value(h + [v], c), lib.value(h + [v, c], p), lib.value(h + [v, c, p], e), "");
  }

  /** The device log the tool runs against: the cached handle's, or a fresh handle's when the settings are valid and the client constructs; otherwise the error. */
  function Attach(lib: Library, snap: Option<seq<Call>>, env: Env): Result<seq<Call>, Raised>
  {
    match snap
    case Some(h) => Success(h)
    case None =>
      match ReadSettings(env)
      case Failure(m) => Failure(OtherError(m))
      case Success(settings) =>
        if lib.construct(settings).Some? then Failure(lib.construct(settings).value) else Success([])
  }

  /** The accessor's state after a tool ran (no handle, or the handle's log) and the tool's outcome. */
  datatype Served = Served(after: Option<seq<Call>>, result: Result<Payload, Raised>)

  /** A tool run behind the lazy accessor: first obtain the device, then perform the tool on it. */
  function Serve(lib: Library, snap: Option<seq<Call>>, env: Env, op: Op): Served
  {
    match Attach(lib, snap, env)
    case Failure(e) => Served(snap, Failure(e))
    case Success(h) => var s := Perform(lib, h, op); Served(Some(h + s.calls), s.result)
  }

  /** Once a device is attached the environment is not read again, and the tool's calls extend its log. */
  lemma ServeReusesDevice(lib: Library, h: seq<Call>, env1: Env, env2: Env, op: Op)
    ensures Serve(lib, Some(h), env1, op) == Serve(lib, Some(h), env2, op)
    ensures Serve(lib, Some(h), env1, op).after == Some(h + Perform(lib, h, op).calls)
  {
  }

  /**
   * Without a device and with a missing host or password, no device is
   * made, no call is issued, and the configuration error is the outcome.
   */
  lemma ServeConfigFailure(lib: Library, env: Env, op: Op)
    requires HostVar !in env || env[HostVar] == "" || PasswordVar !in env || env[PasswordVar] == ""
    ensures Serve(lib, None, env, op) == Served(None, Failure(OtherError(MissingMessage)))
  {
  }

  /**
   * Without a device and with valid settings whose client constructor raises,
   * no device is kept, no call is issued, and the constructor's error is the outcome.
   */
  lemma ServeConstructFault(lib: Library, env: Env, op: Op)
    requires ReadSettings(env).Success? && lib.construct(ReadSettings(env).value).Some?
    ensures Serve(lib, None, env, op) == Served(None, Failure(lib.construct(ReadSettings(env).value).value))
  {
  }

  /** Without a device and with valid settings that construct, a fresh device starts an empty log and runs the tool. */
  lemma ServeFirstUse(lib: Library, env: Env, op: Op)
    requires ReadSettings(env).Success? && lib.construct(ReadSettings(env).value).None?
    ensures Serve(lib, None, env, op) == Served(Some(Perform(lib, [], op).calls), Perform(lib, [], op).result)
  {
    assert [] + Perform(lib, [], op).calls == Perform(lib, [], op).calls;
  }
}
