/**
 The value-level vocabulary of the functional-test configuration fixture:
 configuration tables, the process environment and the snapshot of prior
 environment values, all as finite maps, and the functions that say what
 each of the fixture's operations does to them.
 */
module ConfigMaps {

  /** A Python `str | None`: `None` marks a key that must be absent from the environment. */
  datatype Option<+T> = None | Some(value: T)

  /** The errors the fixture lets escape to its caller. */
  datatype FixtureError =
    | KeyError(key: string)   // `self.config[key]` on a key the table does not hold
    | TypeError               // `json.loads(None)`: the configured value is the absent marker
    | JsonDecodeError         // the configured value is not a JSON object

  datatype Result<+T> = Ok(value: T) | Err(error: FixtureError)

  /** The configuration table: key to value-or-absent-marker. */
  type Config = map<string, Option<string>>

  /** The process environment, and also the snapshot of prior values: key to string. */
  type Env = map<string, string>

  /** `m` and `m'` agree on `k`: both lack it, or both hold it with the same value. */
  ghost predicate SameAt<K, V>(m: map<K, V>, m': map<K, V>, k: K)
  {
    (k !in m && k !in m') || (k in m && k in m' && m[k] == m'[k])
  }

  /**
   Dictionary union `defaults | overrides`: every key of either table, the
   override's value on a collision, the default's value otherwise.
   */
  function Merged(defaults: Config, overrides: Config): (r: Config)
    ensures r.Keys == defaults.Keys + overrides.Keys
    ensures forall k :: k in overrides ==> r[k] == overrides[k]
    ensures forall k :: k in defaults && k !in overrides ==> r[k] == defaults[k]
  {
    defaults + overrides
  }

  /** `config[key]`: the value held for `key`, or a `KeyError`; there is no default. */
  function Lookup(config: Config, key: string): (r: Result<Option<string>>)
    ensures r.Ok? <==> key in config
    ensures r.Ok? ==> r.value == config[key]
    ensures r.Err? ==> r.error == KeyError(key)
  {
    if key in config then Ok(config[key]) else Err(KeyError(key))
  }

  /**
   `json.loads(config[configKey]).get(field)`, with the JSON decoder as the
   parameter `parse`: it yields the decoded object, or `None` when the text is
   not a JSON object. A missing key is a `KeyError`, the absent marker a
   `TypeError`, undecodable text a `JsonDecodeError`; a field the object lacks
   gives `None` rather than an error.
   */
  function FieldFromJson(config: Config, configKey: string, field: string,
                         parse: string -> Option<map<string, string>>): (r: Result<Option<string>>)
    ensures configKey !in config ==> r == Err(KeyError(configKey))
    ensures configKey in config && config[configKey].None? ==> r == Err(TypeError)
    ensures configKey in config && config[configKey].Some? ==>
              (r.Err? <==> parse(config[configKey].value).None?)
    ensures configKey in config && config[configKey].Some? && parse(config[configKey].value).None? ==>
              r == Err(JsonDecodeError)
    ensures r.Ok? ==>
              && configKey in config && config[configKey].Some?
              && parse(config[configKey].value).Some?
              && (r.value.Some? <==> field in parse(config[configKey].value).value)
              && (r.value.Some? ==> r.value.value == parse(config[configKey].value).value[field])
  {
    if configKey !in config then Err(KeyError(configKey))
    else match config[configKey]
      case None => Err(TypeError)
      case Some(text) =>
        match parse(text)
        case None => Err(JsonDecodeError)
        case Some(obj) => Ok(if field in obj then Some(obj[field]) else None)
  }

  /**
   What staging `config` onto `env` leaves at key `k` in `r`: a key with a
   value holds it, a key with the absent marker is missing, and a key outside
   `config` is as it was in `env`.
   */
  ghost predicate AppliedAt(r: Env, env: Env, config: Config, k: string)
  {
    if k !in config then SameAt(r, env, k)
    else match config[k]
      case Some(value) => k in r && r[k] == value
      case None => k !in r
  }

  /** The environment after staging `config` onto `env`, as `AppliedAt` describes it at every key. */
  function Applied(env: Env, config: Config): (r: Env)
    ensures forall k :: AppliedAt(r, env, config, k)
  {
    (env - config.Keys) + map k | k in config && config[k].Some? :: config[k].value
  }

  /**
   What staging `config` onto `env` leaves at key `k` in the snapshot `r`
   that was `saved` before: a config key the environment holds has its
   current value recorded (replacing an older entry); any other key keeps its
   old entry or lack of one.
   */
  ghost predicate RecordedAt(r: Env, saved: Env, env: Env, config: Config, k: string)
  {
    if k in config && k in env then k in r && r[k] == env[k]
    else SameAt(r, saved, k)
  }

  /** The snapshot after staging `config` onto `env`, as `RecordedAt` describes it at every key. */
  function Recorded(saved: Env, env: Env, config: Config): (r: Env)
    ensures forall k :: RecordedAt(r, saved, env, config, k)
  {
    saved + map k | k in config && k in env :: env[k]
  }

  /**
   What restoring `config`'s keys from `saved` leaves at key `k` in `r`: a
   config key with a snapshot entry gets that value back, any other config
   key is missing, and a key outside `config` is as it was in `env`.
   */
  ghost predicate RestoredAt(r: Env, env: Env, config: Config, saved: Env, k: string)
  {
    if k !in config then SameAt(r, env, k)
    else if k in saved then k in r && r[k] == saved[k]
    else k !in r
  }

  /** The environment after restoring `config`'s keys from `saved`, as `RestoredAt` describes it at every key. */
  function Restored(env: Env, config: Config, saved: Env): (r: Env)
    ensures forall k :: RestoredAt(r, env, config, saved, k)
  {
    (env - config.Keys) + map k | k in config && k in saved :: saved[k]
  }

  /** `AppliedAt` at every key pins the staged environment down: it is `Applied(env, config)`. */
  lemma AppliedUnique(r: Env, env: Env, config: Config)
    requires forall k :: AppliedAt(r, env, config, k)
    ensures r == Applied(env, config)
  {
    var a := Applied(env, config);
    forall k
      ensures k in r <==> k in a
      ensures k in r ==> r[k] == a[k]
    {
      assert AppliedAt(r, env, config, k) && AppliedAt(a, env, config, k);
    }
    assert r.Keys == a.Keys;
  }

  /** `RecordedAt` at every key pins the snapshot down: it is `Recorded(saved, env, config)`. */
  lemma RecordedUnique(r: Env, saved: Env, env: Env, config: Config)
    requires forall k :: RecordedAt(r, saved, env, config, k)
    ensures r == Recorded(saved, env, config)
  {
    var a := Recorded(saved, env, config);
    forall k
      ensures k in r <==> k in a
      ensures k in r ==> r[k] == a[k]
    {
      assert RecordedAt(r, saved, env, config, k) && RecordedAt(a, saved, env, config, k);
    }
    assert r.Keys == a.Keys;
  }

  /** `RestoredAt` at every key pins the restored environment down: it is `Restored(env, config, saved)`. */
  lemma RestoredUnique(r: Env, env: Env, config: Config, saved: Env)
    requires forall k :: RestoredAt(r, env, config, saved, k)
    ensures r == Restored(env, config, saved)
  {
    var a := Restored(env, config, saved);
    forall k
      ensures k in r <==> k in a
      ensures k in r ==> r[k] == a[k]
    {
      assert RestoredAt(r, env, config, saved, k) && RestoredAt(a, env, config, saved, k);
    }
    assert r.Keys == a.Keys;
  }
}
