/**
 * The external `PowerSwitchPro` client object, seen only from the outside.
 *
 * The repository treats the client library as opaque, so the model keeps of it
 * only what the dispatch layer can observe: every interaction it issues is
 * appended to an append-only call log, and what each interaction answers (or
 * whether it raises) is supplied by a `Library` value: total functions of the
 * log so far. The model says nothing about outlet physics.
 */
module PowerSwitch {
  import opened Wrappers
  import Config

  /** The values the library hands back as dicts or lists, passed through untouched. */
  datatype JsonValue =
    | JNull
    | JBool(b: bool)
    | JInt(i: int)
    | JReal(r: real)
    | JStr(s: string)
    | JArray(items: seq<JsonValue>)
    | JObject(fields: seq<(string, JsonValue)>)

  datatype Meter = Voltage | Current | Power | Energy

  /** One interaction with the device: a mutation or a query. */
  datatype Call =
    | On(outlet: int)
    | Off(outlet: int)
    | Cycle(outlet: int)
    | Bulk(locked: bool, action: string)
    | SetName(outlet: int, name: string)
    | ReadState(outlet: int)
    | ReadName(outlet: int)
    | ReadLocked(outlet: int)
    | ReadAllStates
    | ReadMeter(meter: Meter)
    | ReadInfo
    | AddEntry(host: string, outlet: int, enabled: bool, interval: int, retries: int)
    | ListEntries
    | GetEntry(entry: int)
    | UpdateEntry(entry: int, newHost: Option<string>, newOutlet: Option<int>, newEnabled: Option<bool>,
                  newInterval: Option<int>, newRetries: Option<int>)
    | DeleteEntry(entry: int)
    | EnableEntry(entry: int)
    | DisableEntry(entry: int)

  /** What an interaction can raise: the library's `PowerSwitchError`, or any other exception. */
  datatype Raised = DeviceError(message: string) | OtherError(message: string)

  /** The status counters the device reports for one pinged host. */
  datatype HostStatus = HostStatus(state: Option<bool>, successCount: Option<int>, failureCount: Option<int>)

  datatype EntryStatus = EntryStatus(hosts: Option<seq<HostStatus>>)

  /**
   * One AutoPing entry as `list_entries` returns it; `None` is a missing key.
   * The fields a transport reads differ: the standard-I/O transport reads
   * host/outlet/enabled/interval/retries, the HTTP one addresses/outlets/enabled/status.
   */
  datatype Entry = Entry(
    host: Option<string>,
    outlet: Option<int>,
    enabled: Option<bool>,
    interval: Option<int>,
    retries: Option<int>,
    addresses: Option<seq<string>>,
    outlets: Option<seq<int>>,
    status: Option<EntryStatus>)

  /**
   * The behaviour of the external library: whether constructing a client for
   * the given settings raises, and, for a call issued after the history `h`,
   * whether it raises and otherwise what it answers.
   */
  datatype Library = Library(
    construct: Config.Settings -> Option<Raised>,
    raises: (seq<Call>, Call) -> Option<Raised>,
    truth: (seq<Call>, Call) -> bool,
    text: (seq<Call>, Call) -> string,
    states: seq<Call> -> seq<bool>,
    value: (seq<Call>, Call) -> JsonValue,
    entries: seq<Call> -> seq<Entry>)

  /** The outcome of issuing `c` after `h`: the raised error, or the answer `v`. */
  function Answer<T>(lib: Library, h: seq<Call>, c: Call, v: T): (r: Result<T, Raised>)
    ensures r.Failure? <==> lib.raises(h, c).Some?
    ensures r.Failure? ==> r.error == lib.raises(h, c).value
    ensures r.Success? ==> r.value == v
  {
    match lib.raises(h, c)
    case Some(e) => Failure(e)
    case None => Success(v)
  }

  /** A handle constructed with the connection settings. */
  class Device {
    const settings: Config.Settings
    const lib: Library
    var log: seq<Call>

    constructor (settings: Config.Settings, lib: Library)
      ensures this.settings == settings && this.lib == lib && log == []
    {
      this.settings := settings;
      this.lib := lib;
      log := [];
    }

    /** Issues a call that answers nothing. */
    method Act(c: Call) returns (err: Option<Raised>)
      modifies this
      ensures log == old(log) + [c]
      ensures err == lib.raises(old(log), c)
    {
      err := lib.raises(log, c);
      log := log + [c];
    }

    /** Issues a call that answers a boolean (a state, a lock flag, a success flag). */
    method AskTruth(c: Call) returns (r: Result<bool, Raised>)
      modifies this
      ensures log == old(log) + [c]
      ensures r == Answer(lib, old(log), c, lib.truth(old(log), c))
    {
      r := Answer(lib, log, c, lib.truth(log, c));
      log := log + [c];
    }

    /** Issues a call that answers a string (an outlet name). */
    method AskText(c: Call) returns (r: Result<string, Raised>)
      modifies this
      ensures log == old(log) + [c]
      ensures r == Answer(lib, old(log), c, lib.text(old(log), c))
    {
      r := Answer(lib, log, c, lib.text(log, c));
      log := log + [c];
    }

    /** `outlets.get_all_states()`. */
    method AskStates() returns (r: Result<seq<bool>, Raised>)
      modifies this
      ensures log == old(log) + [ReadAllStates]
      ensures r == Answer(lib, old(log), ReadAllStates, lib.states(old(log)))
    {
      r := Answer(lib, log, ReadAllStates, lib.states(log));
      log := log + [ReadAllStates];
    }

    /** Issues a call that answers a library value (a meter reading, a dict). */
    method AskValue(c: Call) returns (r: Result<JsonValue, Raised>)
      modifies this
      ensures log == old(log) + [c]
      ensures r == Answer(lib, old(log), c, lib.value(old(log), c))
    {
      r := Answer(lib, log, c, lib.value(log, c));
      log := log + [c];
    }

    /** `autoping.list_entries()`. */
    method AskEntries() returns (r: Result<seq<Entry>, Raised>)
      modifies this
      ensures log == old(log) + [ListEntries]
      ensures r == Answer(lib, old(log), ListEntries, lib.entries(old(log)))
    {
      r := Answer(lib, log, ListEntries, lib.entries(log));
      log := log + [ListEntries];
    }
  }

  /** The calls a sequence of attempts actually issued, and the error that stopped it. */
  datatype Run = Run(issued: seq<Call>, err: Option<Raised>)

  /**
   * Issuing `plan` one call at a time after `h`, stopping at the first call that
   * raises: the calls before it happened, the later ones never do.
   */
  function RunCalls(raises: (seq<Call>, Call) -> Option<Raised>, h: seq<Call>, plan: seq<Call>): (r: Run)
    ensures |r.issued| <= |plan| && r.issued == plan[..|r.issued|]
    ensures r.err.None? ==> r.issued == plan
    ensures r.err.Some? ==> |r.issued| > 0
    decreases |plan|
  {
    if plan == [] then Run([], None)
    else
      match raises(h, plan[0])
      case Some(e) => Run([plan[0]], Some(e))
      case None =>
        var rest := RunCalls(raises, h + [plan[0]], plan[1..]);
        Run([plan[0]] + rest.issued, rest.err)
  }

  lemma LogAppend(h: seq<Call>, p: seq<Call>, a: seq<Call>)
    ensures h + p + a == h + (p + a)
  {
  }

  /** One step of a run: the first call either raises and ends it, or is followed by the run of the rest. */
  lemma RunCons(raises: (seq<Call>, Call) -> Option<Raised>, h: seq<Call>, c: Call, rest: seq<Call>)
    ensures RunCalls(raises, h, [c] + rest) ==
      if raises(h, c).Some? then Run([c], raises(h, c))
      else var t := RunCalls(raises, h + [c], rest); Run([c] + t.issued, t.err)
  {
    assert ([c] + rest)[0] == c && ([c] + rest)[1..] == rest;
  }

  /** When a run stops with an error, its last call raised it and none before it raised. */
  lemma {:induction false} RunStopsAtFirstFault(raises: (seq<Call>, Call) -> Option<Raised>, h: seq<Call>, plan: seq<Call>)
    requires RunCalls(raises, h, plan).err.Some?
    ensures var r := RunCalls(raises, h, plan);
      var n := |r.issued| - 1;
      && raises(h + r.issued[..n], r.issued[n]) == r.err
      && forall k :: 0 <= k < n ==> raises(h + r.issued[..k], r.issued[k]).None?
    decreases |plan|
  {
    var r := RunCalls(raises, h, plan);
    var n := |r.issued| - 1;
    if raises(h, plan[0]).None? {
      var h' := h + [plan[0]];
      var rest := RunCalls(raises, h', plan[1..]);
      RunStopsAtFirstFault(raises, h', plan[1..]);
      var m := |rest.issued| - 1;
      assert r.issued == [plan[0]] + rest.issued;
      assert n == m + 1;
      assert r.issued[..n] == [plan[0]] + rest.issued[..m];
      LogAppend(h, [plan[0]], rest.issued[..m]);
      assert r.issued[n] == rest.issued[m];
      forall k | 0 <= k < n ensures raises(h + r.issued[..k], r.issued[k]).None? {
        if k > 0 {
          var x := rest.issued[..k - 1];
          assert r.issued[..k] == [plan[0]] + x;
          LogAppend(h, [plan[0]], x);
          assert r.issued[k] == rest.issued[k - 1];
        } else {
          assert h + r.issued[..k] == h;
        }
      }
    } else {
      assert n == 0;
      assert h + r.issued[..n] == h;
    }
  }

  /** A run that ends without an error issued the whole plan, and none of its calls raised. */
  lemma {:induction false} RunCleanNeverRaised(raises: (seq<Call>, Call) -> Option<Raised>, h: seq<Call>, plan: seq<Call>)
    requires RunCalls(raises, h, plan).err.None?
    ensures forall k :: 0 <= k < |plan| ==> raises(h + plan[..k], plan[k]).None?
    decreases |plan|
  {
    if plan != [] {
      var h' := h + [plan[0]];
      RunCleanNeverRaised(raises, h', plan[1..]);
      forall k | 0 <= k < |plan| ensures raises(h + plan[..k], plan[k]).None? {
        if k > 0 {
          var x := plan[1..][..k - 1];
          assert plan[..k] == [plan[0]] + x;
          LogAppend(h, [plan[0]], x);
        } else {
          assert h + plan[..k] == h;
        }
      }
    }
  }

  /** A run over a concatenation is the run over the first part followed, if that succeeded, by the second. */
  lemma {:induction false} RunAppend(raises: (seq<Call>, Call) -> Option<Raised>, h: seq<Call>, p: seq<Call>, q: seq<Call>)
    ensures var rp := RunCalls(raises, h, p);
      RunCalls(raises, h, p + q) ==
        if rp.err.Some? then rp
        else var rq := RunCalls(raises, h + p, q); Run(p + rq.issued, rq.err)
    decreases |p|
  {
    if p == [] {
      assert p + q == q;
      assert h + p == h;
    } else {
      assert (p + q)[0] == p[0];
      assert (p + q)[1..] == p[1..] + q;
      if raises(h, p[0]).None? {
        RunAppend(raises, h + [p[0]], p[1..], q);
        assert h + [p[0]] + p[1..] == h + p;
        assert [p[0]] + p[1..] == p;
        var rq := RunCalls(raises, h + p, q);
        assert [p[0]] + (p[1..] + rq.issued) == p + rq.issued;
      }
    }
  }
}
