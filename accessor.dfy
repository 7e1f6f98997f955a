/**
 * The lazy device accessor `get_device` and the module-level `_device` it
 * fills (src/power_switch_pro_mcp/server.py:27-47, and the transport's own
 * copy in src/power_switch_pro_mcp/http_server.py:22-42). The global becomes
 * a field of an accessor object; each transport owns one.
 */
module Access {
  import opened Wrappers
  import opened Config
  import opened PowerSwitch

  class DeviceAccessor {
    /** The library a newly constructed handle talks to. */
    const lib: Library
    /** `_device`: no handle yet, or the cached one. */
    var handle: Device?
    /** How many handles this accessor has constructed. */
    ghost var constructions: nat

    /** A handle exists exactly when one was constructed, and there is at most one. */
    ghost predicate Valid()
      reads this, handle
    {
      && constructions == (if handle == null then 0 else 1)
      && (handle != null ==> handle.lib == lib)
    }

    constructor (lib: Library)
      ensures Valid() && this.lib == lib && handle == null
    {
      this.lib := lib;
      handle := null;
      constructions := 0;
    }

    /** What a tool can observe of the accessor: no handle, or the handle's call log. */
    function Snapshot(): Option<seq<Call>>
      reads this, handle
    {
      if handle == null then None else Some(handle.log)
    }

    /**
     * Returns the cached handle, or validates the settings and constructs the
     * handle once. On a configuration error (a `ValueError`) or a raising
     * constructor nothing is cached, so a later call reads the environment and
     * tries again.
     */
    method GetDevice(env: Env) returns (r: Result<Device, Raised>)
      requires Valid()
      modifies this
      ensures Valid()
      ensures old(handle) != null ==> r == Success(old(handle)) && handle == old(handle)
      ensures old(handle) == null && ReadSettings(env).Failure? ==>
        r == Failure(OtherError(MissingMessage)) && handle == null
      ensures old(handle) == null && ReadSettings(env).Success? && lib.construct(ReadSettings(env).value).Some? ==>
        r == Failure(lib.construct(ReadSettings(env).value).value) && handle == null
      ensures old(handle) == null && ReadSettings(env).Success? && lib.construct(ReadSettings(env).value).None? ==>
        && handle != null && fresh(handle) && r == Success(handle)
        && handle.settings == ReadSettings(env).value && handle.log == []
      ensures constructions == old(constructions) + (if old(handle) == null && handle != null then 1 else 0)
      ensures r.Success? ==> Snapshot() == if old(handle) == null then Some([]) else Some(old(handle.log))
    {
      if handle == null {
        var settings := ReadSettings(env);
        if settings.Failure? {
          return Failure(OtherError(settings.error));
        }
        var fault := lib.construct(settings.value);
        if fault.Some? {
          return Failure(fault.value);
        }
        handle := new Device(settings.value, lib);
        constructions := constructions + 1;
      }
      r := Success(handle);
    }
  }

  /** A second call returns the handle of the first and constructs nothing, whatever the environment says by then. */
  method GetDeviceTwice(acc: DeviceAccessor, env1: Env, env2: Env) returns (first: Result<Device, Raised>, second: Result<Device, Raised>)
    requires acc.Valid()
    modifies acc
    ensures acc.Valid()
    ensures first.Success? ==> second == first && acc.constructions <= 1
    ensures old(acc.handle) == null && first.Failure? && ReadSettings(env2).Success? &&
              acc.lib.construct(ReadSettings(env2).value).None? ==>
      second.Success? && acc.constructions == 1
  {
    first := acc.GetDevice(env1);
    second := acc.GetDevice(env2);
  }
}
