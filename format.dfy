/**
 * Result shaping shared by both transports: the texts and records the tools
 * return, with outlets shown 1-based and states as ON/OFF, and the conversion
 * of a raised error into a returned text or an `{"error": ...}` record.
 */
module Format {
  import opened Wrappers
  import opened Text
  import opened PowerSwitch

  /** The state word, chosen from the outlet's boolean state. */
  function StateText(on: bool): (s: string)
    ensures s == "ON" || s == "OFF"
    ensures s == "ON" <==> on
  {
    if on then "ON" else "OFF"
  }

  /** "Outlet N", N being the 0-based id plus one. */
  function OutletLabel(outletId: int): string
  {
    "Outlet " + IntToString(outletId + 1)
  }

  function TurnedOnMessage(outletId: int): string { OutletLabel(outletId) + " turned ON" }

  function TurnedOffMessage(outletId: int): string { OutletLabel(outletId) + " turned OFF" }

  function CycledMessage(outletId: int): string { OutletLabel(outletId) + " power cycled" }

  function StateMessage(outletId: int, on: bool): string { OutletLabel(outletId) + " is " + StateText(on) }

  function RenamedMessage(outletId: int, name: string): string
  {
    OutletLabel(outletId) + " renamed to '" + name + "'"
  }

  /** Messages about different outlets differ: the label names the outlet. */
  lemma {:induction false} OutletLabelInjective(a: int, b: int, tail: string)
    requires OutletLabel(a) + tail == OutletLabel(b) + tail
    ensures a == b
  {
    var x, y := OutletLabel(a), OutletLabel(b);
    assert |x| == |y| by {
      assert |x + tail| == |y + tail|;
    }
    assert x == (x + tail)[..|x|] == (y + tail)[..|y|] == y;
    assert IntToString(a + 1) == x[7..] == y[7..] == IntToString(b + 1);
    IntToStringInjective(a + 1, b + 1);
  }

  /** The line for outlet index `k` of the state list. */
  function StateLine(k: nat, on: bool): string
  {
    "Outlet " + IntToString(k + 1) + ": " + StateText(on)
  }

  /** One line per state, in the order of the list: line `k` reads back as outlet `k + 1` with state `k`. */
  function StateLines(states: seq<bool>): (lines: seq<string>)
    ensures |lines| == |states|
    ensures forall k :: 0 <= k < |states| ==> ParseStateLine(lines[k]) == Some((k + 1, states[k]))
  {
    var lines := seq(|states|, k requires 0 <= k < |states| => StateLine(k, states[k]));
    assert forall k :: 0 <= k < |states| ==> ParseStateLine(lines[k]) == Some((k + 1, states[k])) by {
      forall k | 0 <= k < |states| ensures ParseStateLine(lines[k]) == Some((k + 1, states[k])) {
        ParseStateLineOf(k, states[k]);
      }
    }
    lines
  }

  /** What `get_all_outlet_states` returns: the lines joined by newlines. */
  function AllStatesText(states: seq<bool>): string
  {
    Join("\n", StateLines(states))
  }

  /** Position of the first `c` in `s`. */
  function IndexOf(s: string, c: char): (r: Option<nat>)
    ensures r.Some? ==> r.value < |s| && s[r.value] == c && c !in s[..r.value]
    ensures r.None? ==> c !in s
  {
    if s == [] then None
    else if s[0] == c then Some(0)
    else match IndexOf(s[1..], c)
      case None => None
      case Some(k) => assert s[..k + 1] == [s[0]] + s[1..][..k]; Some(k + 1)
  }

  /** Reads "Outlet N: ON" or "Outlet N: OFF" back into N and the state. */
  function ParseStateLine(line: string): Option<(int, bool)>
  {
    if |line| < 7 || line[..7] != "Outlet " then None
    else
      var rest := line[7..];
      match IndexOf(rest, ':')
      case None => None
      case Some(k) =>
        var word := rest[k + 1..];
        match ParseInt(rest[..k])
        case None => None
        case Some(n) =>
          if word == " ON" then Some((n, true))
          else if word == " OFF" then Some((n, false))
          else None
  }

  function ParseLines(lines: seq<string>, first: nat): Option<seq<bool>>
    decreases |lines|
  {
    if lines == [] then Some([])
    else
      match ParseStateLine(lines[0])
      case None => None
      case Some(p) =>
        if p.0 != first + 1 then None
        else
          match ParseLines(lines[1..], first + 1)
          case None => None
          case Some(rest) => Some([p.1] + rest)
  }

  /** Reads the text back into the state list, checking that lines are numbered 1, 2, ... */
  function ParseAllStates(text: string): Option<seq<bool>>
  {
    if text == "" then Some([]) else ParseLines(Split(text, '\n'), 0)
  }

  lemma {:induction false} IndexOfAfter(p: string, t: string, c: char)
    requires c !in p
    ensures IndexOf(p + [c] + t, c) == Some(|p|)
  {
    if p != [] {
      IndexOfAfter(p[1..], t, c);
      assert (p + [c] + t)[1..] == p[1..] + [c] + t;
    }
  }

  /** A state line parses into its number and its state, whatever digits the number has. */
  lemma ParseStateLineParts(num: string, n: int, on: bool)
    requires ':' !in num && ParseInt(num) == Some(n)
    ensures ParseStateLine("Outlet " + num + ": " + StateText(on)) == Some((n, on))
  {
    var word := " " + StateText(on);
    var rest := num + [':'] + word;
    var line := "Outlet " + num + ": " + StateText(on);
    assert line == "Outlet " + rest;
    assert line[..7] == "Outlet " && line[7..] == rest;
    IndexOfAfter(num, word, ':');
    assert rest[..|num|] == num && rest[|num| + 1..] == word;
    assert word == " ON" <==> on;
  }

  lemma ParseStateLineOf(k: nat, on: bool)
    ensures ParseStateLine(StateLine(k, on)) == Some((k + 1, on))
  {
    IntToStringChars(k + 1);
    ParseIntOfIntToString(k + 1);
    ParseStateLineParts(IntToString(k + 1), k + 1, on);
  }

  /** Lines numbered from `first + 1` parse back into their states. */
  lemma {:induction false} ParseLinesOf(lines: seq<string>, states: seq<bool>, first: nat)
    requires |lines| == |states|
    requires forall k :: 0 <= k < |lines| ==> lines[k] == StateLine(first + k, states[k])
    ensures ParseLines(lines, first) == Some(states)
    decreases |states|
  {
    if states != [] {
      assert lines[0] == StateLine(first, states[0]);
      ParseStateLineOf(first, states[0]);
      var lt, st := lines[1..], states[1..];
      forall k | 0 <= k < |lt|
        ensures lt[k] == StateLine(first + 1 + k, st[k])
      {
        assert lt[k] == lines[k + 1];
      }
      ParseLinesOf(lt, st, first + 1);
      assert [states[0]] + st == states;
    }
  }

  lemma StateLinesFreeOfNewline(states: seq<bool>)
    ensures FreeOf(StateLines(states), '\n')
  {
    forall k | 0 <= k < |states| ensures '\n' !in StateLines(states)[k] {
      IntToStringChars(k + 1);
    }
  }

  /** The text lists exactly the given states, in order, numbered from 1. */
  lemma AllStatesRoundTrip(states: seq<bool>)
    ensures ParseAllStates(AllStatesText(states)) == Some(states)
  {
    var lines := StateLines(states);
    var text := AllStatesText(states);
    if states != [] {
      assert Split(text, '\n') == lines by {
        StateLinesFreeOfNewline(states);
        SplitJoin(lines, '\n');
      }
      assert text != "" by {
        JoinLength("\n", lines);
      }
      assert ParseLines(lines, 0) == Some(states) by {
        ParseLinesOf(lines, states, 0);
      }
    }
  }

  /** The 1-based numbers of the given outlet ids. */
  function OneBased(ids: seq<int>): (r: seq<int>)
    ensures |r| == |ids|
    ensures forall k :: 0 <= k < |ids| ==> r[k] == ids[k] + 1
  {
    seq(|ids|, k requires 0 <= k < |ids| => ids[k] + 1)
  }

  function BulkPrefix(action: string): string
  {
    "Performed '" + action + "' on outlets: "
  }

  /** The message of a bulk operation over an explicit list of ids. */
  function BulkListedMessage(action: string, ids: seq<int>): string
  {
    BulkPrefix(action) + PyIntList(OneBased(ids))
  }

  /** The message lists the ids, each plus one, in the order given. */
  lemma BulkListedMessageLists(action: string, ids: seq<int>)
    ensures ParseIntList(BulkListedMessage(action, ids)[|BulkPrefix(action)|..]) == Some(OneBased(ids))
  {
    assert BulkListedMessage(action, ids)[|BulkPrefix(action)|..] == PyIntList(OneBased(ids));
    ParseIntListOfPyIntList(OneBased(ids));
  }

  /** The message of a bulk operation over all unlocked outlets. */
  function BulkAllMessage(action: string): string
  {
    "Performed '" + action + "' on all unlocked outlets"
  }

  function AddedHeader(host: string, outletId: int): string
  {
    "Added AutoPing entry for host " + host + " on outlet " + IntToString(outletId + 1)
  }

  /** The AutoPing commands that answer a success flag. */
  datatype EntryCommand = Update | Delete | Enable | Disable

  /** The past participle the success text uses. */
  function Done(cmd: EntryCommand): string
  {
    match cmd
    case Update => "updated"
    case Delete => "deleted"
    case Enable => "enabled"
    case Disable => "disabled"
  }

  /** The verb the failure text uses. */
  function Verb(cmd: EntryCommand): string
  {
    match cmd
    case Update => "update"
    case Delete => "delete"
    case Enable => "enable"
    case Disable => "disable"
  }

  /** "updated successfully" / "update failed", and so on per command. */
  function Outcome(cmd: EntryCommand, ok: bool): string
  {
    if ok then Done(cmd) + " successfully" else Verb(cmd) + " failed"
  }

  /** "AutoPing entry {id} {ok-text|fail-text}". */
  function EntryStatusMessage(entry: int, cmd: EntryCommand, ok: bool): string
  {
    "AutoPing entry " + IntToString(entry) + " " + Outcome(cmd, ok)
  }

  predicate EndsWith(s: string, suffix: string)
  {
    |suffix| <= |s| && s[|s| - |suffix|..] == suffix
  }

  lemma EndsWithAppend(p: string, o: string, suffix: string)
    requires EndsWith(o, suffix)
    ensures EndsWith(p + o, suffix)
  {
    assert (p + o)[|p + o| - |suffix|..] == o[|o| - |suffix|..];
  }

  lemma EndsWithLast(s: string, suffix: string)
    requires EndsWith(s, suffix) && |suffix| > 0
    ensures s[|s| - 1] == suffix[|suffix| - 1]
  {
    assert s[|s| - |suffix|..][|suffix| - 1] == s[|s| - 1];
  }

  lemma OutcomeSuffix(cmd: EntryCommand, ok: bool)
    ensures ok ==> EndsWith(Outcome(cmd, ok), " successfully")
    ensures !ok ==> EndsWith(Outcome(cmd, ok), " failed")
  {
    if ok {
      EndsWithAppend(Done(cmd), " successfully", " successfully");
    } else {
      EndsWithAppend(Verb(cmd), " failed", " failed");
    }
  }

  /** No text ends both ways. */
  lemma SuffixesExclusive(m: string)
    ensures !(EndsWith(m, " successfully") && EndsWith(m, " failed"))
  {
    if EndsWith(m, " successfully") && EndsWith(m, " failed") {
      EndsWithLast(m, " successfully");
      EndsWithLast(m, " failed");
    }
  }

  /** The status message reports success exactly when the device's flag is true. */
  lemma EntryStatusReportsFlag(entry: int, cmd: EntryCommand, ok: bool)
    ensures EndsWith(EntryStatusMessage(entry, cmd, ok), " successfully") <==> ok
    ensures EndsWith(EntryStatusMessage(entry, cmd, ok), " failed") <==> !ok
  {
    var p := "AutoPing entry " + IntToString(entry) + " ";
    var o := Outcome(cmd, ok);
    var m := EntryStatusMessage(entry, cmd, ok);
    assert m == p + o;
    OutcomeSuffix(cmd, ok);
    EndsWithAppend(p, o, if ok then " successfully" else " failed");
    SuffixesExclusive(m);
  }

  /** A raised error as returned text. */
  function ErrorText(e: Raised): string
  {
    match e
    case DeviceError(m) => "Error: " + m
    case OtherError(m) => "Unexpected error: " + m
  }

  /** A raised error as returned `{"error": ...}` record. */
  function ErrorRecord(e: Raised): JsonValue
  {
    match e
    case DeviceError(m) => JObject([("error", JStr(m))])
    case OtherError(m) => JObject([("error", JStr("Unexpected error: " + m))])
  }

  predicate StartsWith(s: string, prefix: string)
  {
    |prefix| <= |s| && s[..|prefix|] == prefix
  }

  /** A returned text that reports a raised error. */
  predicate IsErrorText(s: string)
  {
    StartsWith(s, "Error: ") || StartsWith(s, "Unexpected error: ")
  }

  /** Field lookup in a record, first match. */
  function Field(v: JsonValue, key: string): Option<JsonValue>
  {
    if v.JObject? then FieldIn(v.fields, key) else None
  }

  function FieldIn(fields: seq<(string, JsonValue)>, key: string): Option<JsonValue>
  {
    if fields == [] then None
    else if fields[0].0 == key then Some(fields[0].1)
    else FieldIn(fields[1..], key)
  }

  /**
   * Every raised error is reported, with its message, as text with an error
   * prefix and as a record whose only key is "error"; the two kinds stay
   * distinguishable.
   */
  lemma ErrorsAreReported(e: Raised)
    ensures IsErrorText(ErrorText(e))
    ensures StartsWith(ErrorText(e), "Error: ") <==> e.DeviceError?
    ensures ErrorText(e)[|ErrorText(e)| - |e.message|..] == e.message
    ensures ErrorRecord(e).JObject? && |ErrorRecord(e).fields| == 1
    ensures Field(ErrorRecord(e), "error") == Some(JStr(if e.DeviceError? then e.message else ErrorText(e)))
  {
    var t := ErrorText(e);
    if e.OtherError? {
      assert t[..7] == "Unexpec";
    }
  }

  const UnknownToolPrefix := "Unknown tool: "

  function UnknownToolMessage(name: string): string
  {
    UnknownToolPrefix + name
  }

  const NoEntriesMessage := "No AutoPing entries configured"

  /** `get_outlet_info`'s record: the 0-based id, the name, the state word and the lock flag. */
  function InfoRecord(outletId: int, name: string, on: bool, locked: bool): JsonValue
  {
    JObject([("id", JInt(outletId)), ("name", JStr(name)), ("state", JStr(StateText(on))), ("locked", JBool(locked))])
  }

  /** `get_power_metrics`' record, the readings passed through. */
  function MetricsRecord(voltage: JsonValue, current: JsonValue, power: JsonValue, energy: JsonValue): JsonValue
  {
    JObject([("voltage_v", voltage), ("current_a", current), ("power_w", power), ("energy_kwh", energy)])
  }

  function OrNA(v: Option<string>): string
  {
    match v
    case Some(s) => s
    case None => "N/A"
  }

  function IntOrNA(v: Option<int>): string
  {
    match v
    case Some(i) => IntToString(i)
    case None => "N/A"
  }

  function BoolOrNA(v: Option<bool>): string
  {
    match v
    case Some(b) => BoolToString(b)
    case None => "N/A"
  }

  function IntOr(v: Option<int>, default: int): int
  {
    match v
    case Some(i) => i
    case None => default
  }

  /** The lines of entry `k` as the standard-I/O transport lists it. */
  function StdioEntryLines(k: nat, e: Entry): seq<string>
  {
    [ "Entry " + IntToString(k) + ":",
      "  Host: " + OrNA(e.host),
      "  Outlet: " + IntToString(IntOr(e.outlet, -1) + 1),
      "  Enabled: " + BoolOrNA(e.enabled),
      "  Interval: " + IntOrNA(e.interval) + "s",
      "  Retries: " + IntOrNA(e.retries) ]
  }

  function StdioEntryBlock(k: nat, e: Entry): string
  {
    Join("\n", StdioEntryLines(k, e))
  }

  /** The host the HTTP transport shows: the first address, else "N/A". */
  function FirstAddress(e: Entry): string
  {
    if e.addresses.Some? && |e.addresses.value| > 0 then e.addresses.value[0] else "N/A"
  }

  /** The outlet the HTTP transport shows, 0-based: the first bound outlet, else -1. */
  function FirstOutlet(e: Entry): int
  {
    if e.outlets.Some? && |e.outlets.value| > 0 then e.outlets.value[0] else -1
  }

  /** The status of the first pinged host; an absent or empty list reads as an empty status. */
  function FirstHostStatus(e: Entry): HostStatus
  {
    if e.status.Some? && e.status.value.hosts.Some? && |e.status.value.hosts.value| > 0
    then e.status.value.hosts.value[0]
    else HostStatus(None, None, None)
  }

  function Activity(e: Entry): string
  {
    if FirstHostStatus(e).state == Some(true) then "Active" else "Inactive"
  }

  /** The lines of entry `k` as the HTTP transport lists it. */
  function HttpEntryLines(k: nat, e: Entry): seq<string>
  {
    var hs := FirstHostStatus(e);
    [ "Entry " + IntToString(k) + ":",
      "  Host: " + FirstAddress(e),
      "  Outlet: " + IntToString(FirstOutlet(e) + 1),
      "  Enabled: " + BoolToString(if e.enabled.Some? then e.enabled.value else false),
      "  State: " + Activity(e),
      "  Success: " + IntToString(IntOr(hs.successCount, 0)) + " | Failures: " + IntToString(IntOr(hs.failureCount, 0)) ]
  }

  function HttpEntryBlock(k: nat, e: Entry): string
  {
    Join("\n", HttpEntryLines(k, e))
  }

  /** The listing: the entry blocks separated by a blank line, or the no-entries text. */
  function EntriesText(blocks: seq<string>): string
  {
    if |blocks| == 0 then NoEntriesMessage else Join("\n\n", blocks)
  }

  function StdioEntriesText(entries: seq<Entry>): string
  {
    EntriesText(seq(|entries|, k requires 0 <= k < |entries| => StdioEntryBlock(k, entries[k])))
  }

  function HttpEntriesText(entries: seq<Entry>): string
  {
    EntriesText(seq(|entries|, k requires 0 <= k < |entries| => HttpEntryBlock(k, entries[k])))
  }

  lemma JoinStartsWithFirst(sep: string, parts: seq<string>)
    requires |parts| > 0
    ensures StartsWith(Join(sep, parts), parts[0])
  {
    if |parts| > 1 {
      var rest := sep + Join(sep, parts[1..]);
      assert Join(sep, parts) == parts[0] + rest;
      assert (parts[0] + rest)[..|parts[0]|] == parts[0];
    }
  }

  lemma StartsWithTrans(a: string, b: string, c: string)
    requires StartsWith(a, b) && StartsWith(b, c)
    ensures StartsWith(a, c)
  {
    assert a[..|c|] == b[..|b|][..|c|];
  }

  /** A listing of entry blocks that each open with their header starts with entry 0's header. */
  lemma ListingHead(blocks: seq<string>, first: string)
    requires |blocks| > 0 && StartsWith(blocks[0], first)
    ensures StartsWith(EntriesText(blocks), first)
  {
    JoinStartsWithFirst("\n\n", blocks);
    StartsWithTrans(EntriesText(blocks), blocks[0], first);
  }

  /**
   * The standard-I/O listing is the no-entries text exactly for an empty list;
   * otherwise it opens with entry 0's header.
   */
  lemma StdioListingEmptyIff(entries: seq<Entry>)
    ensures StdioEntriesText(entries) == NoEntriesMessage <==> entries == []
    ensures entries != [] ==> StartsWith(StdioEntriesText(entries), "Entry 0:")
  {
    if entries != [] {
      var blocks := seq(|entries|, k requires 0 <= k < |entries| => StdioEntryBlock(k, entries[k]));
      var lines := StdioEntryLines(0, entries[0]);
      ZeroText();
      assert lines[0] == "Entry 0:";
      JoinStartsWithFirst("\n", lines);
      ListingHead(blocks, "Entry 0:");
      assert StdioEntriesText(entries)[0] == 'E' != NoEntriesMessage[0];
    }
  }

  /**
   * The HTTP listing is the no-entries text exactly for an empty list;
   * otherwise it opens with entry 0's header.
   */
  lemma HttpListingEmptyIff(entries: seq<Entry>)
    ensures HttpEntriesText(entries) == NoEntriesMessage <==> entries == []
    ensures entries != [] ==> StartsWith(HttpEntriesText(entries), "Entry 0:")
  {
    if entries != [] {
      var blocks := seq(|entries|, k requires 0 <= k < |entries| => HttpEntryBlock(k, entries[k]));
      var lines := HttpEntryLines(0, entries[0]);
      ZeroText();
      assert lines[0] == "Entry 0:";
      JoinStartsWithFirst("\n", lines);
      ListingHead(blocks, "Entry 0:");
      assert HttpEntriesText(entries)[0] == 'E' != NoEntriesMessage[0];
    }
  }

  /** An entry with none of the keys either transport reads. */
  const EmptyEntry := Entry(None, None, None, None, None, None, None, None)

  /** The defaults the standard-I/O listing prints for missing keys; a missing outlet prints as -1 + 1. */
  lemma StdioEntryDefaults(k: nat)
    ensures StdioEntryLines(k, EmptyEntry)[1..] ==
      ["  Host: N/A", "  Outlet: 0", "  Enabled: N/A", "  Interval: N/As", "  Retries: N/A"]
  {
    ZeroText();
    var lines := StdioEntryLines(k, EmptyEntry);
    assert lines[1] == "  Host: N/A";
    assert lines[2] == "  Outlet: 0";
    assert lines[3] == "  Enabled: N/A";
    assert lines[4] == "  Interval: N/As";
    assert lines[5] == "  Retries: N/A";
  }

  /** The status an entry without keys reads as: no state, no counters. */
  lemma EmptyEntryStatus()
    ensures FirstHostStatus(EmptyEntry) == HostStatus(None, None, None)
    ensures Activity(EmptyEntry) == "Inactive"
    ensures FirstAddress(EmptyEntry) == "N/A" && FirstOutlet(EmptyEntry) == -1
  {
  }

  lemma HttpDefaultHead(k: nat)
    ensures var lines := HttpEntryLines(k, EmptyEntry);
      lines[1] == "  Host: N/A" && lines[2] == "  Outlet: 0" && lines[3] == "  Enabled: False"
  {
    EmptyEntryStatus();
    ZeroText();
    assert BoolToString(false) == "False";
  }

  lemma HttpDefaultTail(k: nat)
    ensures var lines := HttpEntryLines(k, EmptyEntry);
      lines[4] == "  State: Inactive" && lines[5] == "  Success: 0 | Failures: 0"
  {
    EmptyEntryStatus();
    ZeroText();
    assert "  Success: " + "0" + " | Failures: " + "0" == "  Success: 0 | Failures: 0";
  }

  /** The defaults the HTTP listing prints for missing keys. */
  lemma HttpEntryDefaults(k: nat)
    ensures HttpEntryLines(k, EmptyEntry)[1..] ==
      ["  Host: N/A", "  Outlet: 0", "  Enabled: False", "  State: Inactive", "  Success: 0 | Failures: 0"]
  {
    var lines := HttpEntryLines(k, EmptyEntry);
    HttpDefaultHead(k);
    HttpDefaultTail(k);
    assert lines[1..] == [lines[1], lines[2], lines[3], lines[4], lines[5]];
  }

  lemma ZeroText()
    ensures IntToString(0) == "0"
  {
    assert NatToString(0) == [Digit(0)];
  }

  lemma IntToStringFreeOfNewline(i: int)
    ensures '\n' !in IntToString(i)
  {
    IntToStringChars(i);
  }

  /** A label followed by a value holds no newline when neither does. */
  lemma LabelledFree(head: string, v: string)
    requires '\n' !in head && '\n' !in v
    ensures '\n' !in head + v
  {
  }

  lemma StdioHeadLinesFree(k: nat, e: Entry)
    requires e.host.Some? ==> '\n' !in e.host.value
    ensures var lines := StdioEntryLines(k, e); '\n' !in lines[0] && '\n' !in lines[1] && '\n' !in lines[2]
  {
    IntToStringFreeOfNewline(k);
    LabelledFree("Entry ", IntToString(k));
    LabelledFree("Entry " + IntToString(k), ":");
    LabelledFree("  Host: ", OrNA(e.host));
    IntToStringFreeOfNewline(IntOr(e.outlet, -1) + 1);
    LabelledFree("  Outlet: ", IntToString(IntOr(e.outlet, -1) + 1));
  }

  lemma StdioTailLinesFree(k: nat, e: Entry)
    ensures var lines := StdioEntryLines(k, e); '\n' !in lines[3] && '\n' !in lines[4] && '\n' !in lines[5]
  {
    LabelledFree("  Enabled: ", BoolOrNA(e.enabled));
    if e.interval.Some? { IntToStringFreeOfNewline(e.interval.value); }
    LabelledFree("  Interval: ", IntOrNA(e.interval));
    LabelledFree("  Interval: " + IntOrNA(e.interval), "s");
    if e.retries.Some? { IntToStringFreeOfNewline(e.retries.value); }
    LabelledFree("  Retries: ", IntOrNA(e.retries));
  }

  /** No line of a standard-I/O entry block holds a newline, when the host holds none. */
  lemma StdioEntryLinesFree(k: nat, e: Entry)
    requires e.host.Some? ==> '\n' !in e.host.value
    ensures FreeOf(StdioEntryLines(k, e), '\n')
  {
    StdioHeadLinesFree(k, e);
    StdioTailLinesFree(k, e);
  }

  /**
   * A standard-I/O entry block is six lines, numbered by its position, with
   * one field per line in a fixed order, when the host holds no newline.
   */
  lemma StdioEntryBlockLayout(k: nat, e: Entry)
    requires e.host.Some? ==> '\n' !in e.host.value
    ensures Split(StdioEntryBlock(k, e), '\n') == StdioEntryLines(k, e)
    ensures StdioEntryLines(k, e)[0] == "Entry " + IntToString(k) + ":"
  {
    StdioEntryLinesFree(k, e);
    SplitJoin(StdioEntryLines(k, e), '\n');
  }

  lemma HttpHeadLinesFree(k: nat, e: Entry)
    requires '\n' !in FirstAddress(e)
    ensures var lines := HttpEntryLines(k, e); '\n' !in lines[0] && '\n' !in lines[1] && '\n' !in lines[2]
  {
    IntToStringFreeOfNewline(k);
    LabelledFree("Entry ", IntToString(k));
    LabelledFree("Entry " + IntToString(k), ":");
    LabelledFree("  Host: ", FirstAddress(e));
    IntToStringFreeOfNewline(FirstOutlet(e) + 1);
    LabelledFree("  Outlet: ", IntToString(FirstOutlet(e) + 1));
  }

  lemma HttpTailLinesFree(k: nat, e: Entry)
    ensures var lines := HttpEntryLines(k, e); '\n' !in lines[3] && '\n' !in lines[4] && '\n' !in lines[5]
  {
    var hs := FirstHostStatus(e);
    LabelledFree("  Enabled: ", BoolToString(if e.enabled.Some? then e.enabled.value else false));
    LabelledFree("  State: ", Activity(e));
    var s, f := IntToString(IntOr(hs.successCount, 0)), IntToString(IntOr(hs.failureCount, 0));
    IntToStringFreeOfNewline(IntOr(hs.successCount, 0));
    IntToStringFreeOfNewline(IntOr(hs.failureCount, 0));
    LabelledFree("  Success: ", s);
    LabelledFree("  Success: " + s, " | Failures: ");
    LabelledFree("  Success: " + s + " | Failures: ", f);
  }

  /** No line of an HTTP entry block holds a newline, when the shown address holds none. */
  lemma HttpEntryLinesFree(k: nat, e: Entry)
    requires '\n' !in FirstAddress(e)
    ensures FreeOf(HttpEntryLines(k, e), '\n')
  {
    HttpHeadLinesFree(k, e);
    HttpTailLinesFree(k, e);
  }

  /**
   * An HTTP entry block is six lines, numbered by its position, with one field
   * per line in a fixed order, when the shown address holds no newline.
   */
  lemma HttpEntryBlockLayout(k: nat, e: Entry)
    requires '\n' !in FirstAddress(e)
    ensures Split(HttpEntryBlock(k, e), '\n') == HttpEntryLines(k, e)
    ensures HttpEntryLines(k, e)[0] == "Entry " + IntToString(k) + ":"
  {
    HttpEntryLinesFree(k, e);
    SplitJoin(HttpEntryLines(k, e), '\n');
  }

  /** The first pinged host's status, when the entry reports one. */
  predicate HasHostStatus(e: Entry)
  {
    e.status.Some? && e.status.value.hosts.Some? && |e.status.value.hosts.value| > 0
  }

  /** The host, outlet and enabled lines of an HTTP entry with those keys present. */
  lemma HttpShowsHead(k: nat, e: Entry)
    ensures var lines := HttpEntryLines(k, e);
      && (e.addresses.Some? && |e.addresses.value| > 0 ==> lines[1] == "  Host: " + e.addresses.value[0])
      && (e.outlets.Some? && |e.outlets.value| > 0 ==> lines[2] == "  Outlet: " + IntToString(e.outlets.value[0] + 1))
      && (e.enabled.Some? ==> lines[3] == "  Enabled: " + BoolToString(e.enabled.value))
  {
  }

  /** The state and counter lines of an HTTP entry come from the first pinged host's status. */
  lemma HttpShowsTail(k: nat, e: Entry)
    ensures var lines := HttpEntryLines(k, e);
      && (lines[4] == "  State: Active" <==> HasHostStatus(e) && e.status.value.hosts.value[0].state == Some(true))
      && (HasHostStatus(e) ==> var hs := e.status.value.hosts.value[0];
            lines[5] == "  Success: " + IntToString(IntOr(hs.successCount, 0)) +
                        " | Failures: " + IntToString(IntOr(hs.failureCount, 0)))
  {
    var lines := HttpEntryLines(k, e);
    assert lines[4] == "  State: " + Activity(e);
    assert "  State: Inactive" != "  State: Active" by {
      assert "  State: Inactive"[9] != "  State: Active"[9];
    }
  }

  /**
   * The HTTP block of an entry with its keys present shows the first address,
   * the first bound outlet counted from 1, and the first host's counters; it
   * says "Active" exactly when the first host's state is set.
   */
  lemma HttpEntryShows(k: nat, e: Entry)
    requires e.addresses.Some? && |e.addresses.value| > 0 ==> '\n' !in e.addresses.value[0]
    ensures var lines := Split(HttpEntryBlock(k, e), '\n');
      && |lines| == 6
      && (e.addresses.Some? && |e.addresses.value| > 0 ==> lines[1] == "  Host: " + e.addresses.value[0])
      && (e.outlets.Some? && |e.outlets.value| > 0 ==> lines[2] == "  Outlet: " + IntToString(e.outlets.value[0] + 1))
      && (e.enabled.Some? ==> lines[3] == "  Enabled: " + BoolToString(e.enabled.value))
      && (lines[4] == "  State: Active" <==> HasHostStatus(e) && e.status.value.hosts.value[0].state == Some(true))
      && (HasHostStatus(e) ==> var hs := e.status.value.hosts.value[0];
            lines[5] == "  Success: " + IntToString(IntOr(hs.successCount, 0)) +
                        " | Failures: " + IntToString(IntOr(hs.failureCount, 0)))
  {
    HttpEntryBlockLayout(k, e);
    HttpShowsHead(k, e);
    HttpShowsTail(k, e);
  }
}
