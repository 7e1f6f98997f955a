/**
 * The connection settings that `get_device` reads from the process environment
 * (src/power_switch_pro_mcp/server.py:34-42, identical in http_server.py:29-37).
 * The environment is a map from variable names to values.
 */
module Config {
  import opened Wrappers

  type Env = map<string, string>

  const HostVar := "POWER_SWITCH_HOST"
  const UsernameVar := "POWER_SWITCH_USERNAME"
  const PasswordVar := "POWER_SWITCH_PASSWORD"
  const UseHttpsVar := "POWER_SWITCH_USE_HTTPS"
  const DefaultUsername := "admin"
  const DefaultUseHttps := "false"

  /** The text of the ValueError raised when a mandatory variable is unset or empty. */
  const MissingMessage := "POWER_SWITCH_HOST and POWER_SWITCH_PASSWORD environment variables must be set"

  /** The arguments the device handle is constructed with. */
  datatype Settings = Settings(host: string, username: string, password: string, useHttps: bool)

  /** `os.getenv(key)`. */
  function GetEnv(env: Env, key: string): Option<string>
  {
    if key in env then Some(env[key]) else None
  }

  /** `os.getenv(key, default)`. */
  function GetEnvOr(env: Env, key: string, default: string): string
  {
    if key in env then env[key] else default
  }

  /** Python truthiness of an optional string: present and non-empty. */
  predicate Truthy(v: Option<string>)
  {
    v.Some? && v.value != ""
  }

  function LowerChar(c: char): char
  {
    if 'A' <= c <= 'Z' then (c as int + 32) as char else c
  }

  /** `s.lower()`, on ASCII letters. */
  function Lower(s: string): (r: string)
    ensures |r| == |s|
  {
    if s == [] then [] else [LowerChar(s[0])] + Lower(s[1..])
  }

  /** The flag's spellings, as an independent reference: "true" in any mix of cases. */
  predicate SpellsTrue(v: string)
  {
    && |v| == 4
    && (v[0] == 't' || v[0] == 'T')
    && (v[1] == 'r' || v[1] == 'R')
    && (v[2] == 'u' || v[2] == 'U')
    && (v[3] == 'e' || v[3] == 'E')
  }

  /** Reads the four settings, or fails with the configuration error. */
  function ReadSettings(env: Env): (r: Result<Settings, string>)
    ensures r.Failure? <==> HostVar !in env || env[HostVar] == "" || PasswordVar !in env || env[PasswordVar] == ""
    ensures r.Failure? ==> r.error == MissingMessage
    ensures r.Success? ==> r.value.host == env[HostVar] && r.value.password == env[PasswordVar]
    ensures r.Success? ==> r.value.username == if UsernameVar in env then env[UsernameVar] else DefaultUsername
  {
    var host := GetEnv(env, HostVar);
    var username := GetEnvOr(env, UsernameVar, DefaultUsername);
    var password := GetEnv(env, PasswordVar);
    var useHttps := Lower(GetEnvOr(env, UseHttpsVar, DefaultUseHttps)) == "true";
    if !Truthy(host) || !Truthy(password) then Failure(MissingMessage)
    else Success(Settings(host.value, username, password.value, useHttps))
  }

  lemma {:induction false} LowerAt(s: string, k: nat)
    requires k < |s|
    ensures Lower(s)[k] == LowerChar(s[k])
  {
    if k > 0 {
      LowerAt(s[1..], k - 1);
    }
  }

  /** The flag is lowered before it is compared: it holds exactly for the spellings of "true". */
  lemma LowerIsTrueIff(v: string)
    ensures Lower(v) == "true" <==> SpellsTrue(v)
  {
    if |v| == 4 {
      LowerAt(v, 0);
      LowerAt(v, 1);
      LowerAt(v, 2);
      LowerAt(v, 3);
      if SpellsTrue(v) {
        assert Lower(v) == [Lower(v)[0], Lower(v)[1], Lower(v)[2], Lower(v)[3]];
      }
    }
  }

  /** The secure-transport flag: set iff the variable spells "true" in some case; unset by default. */
  lemma UseHttpsIff(env: Env)
    requires ReadSettings(env).Success?
    ensures ReadSettings(env).value.useHttps <==> UseHttpsVar in env && SpellsTrue(env[UseHttpsVar])
  {
    LowerIsTrueIff(GetEnvOr(env, UseHttpsVar, DefaultUseHttps));
  }
}
