/**
 The functional-test configuration fixture: a configuration table built from
 the defaults plus caller overrides, staged into the process environment and
 later taken back out of it.

 The process environment and the snapshot of prior values are objects of
 their own. In the source the snapshot is a class attribute: every fixture
 shares the one dictionary and nothing ever clears it. Passing the same
 `Snapshot` to several fixtures models exactly that sharing.
 */
module AppConfigFixture {
  import opened ConfigMaps
  import DefaultTable

  /** The process environment, `os.environ`. */
  class Environment {
    var vars: Env

    constructor (vars: Env)
      ensures this.vars == vars
    {
      this.vars := vars;
    }
  }

  /** The class-level `before_config` dictionary: prior environment values by key. */
  class Snapshot {
    var saved: Env

    constructor ()
      ensures saved == map[]
    {
      saved := map[];
    }
  }

  class AppConfig {
    var config: Config
    const env: Environment
    const before: Snapshot

    /** `AppConfig(config_overrides)`: a fresh copy of the defaults with the overrides merged on top. */
    constructor (overrides: Config, env: Environment, before: Snapshot)
      ensures config == Merged(DefaultTable.DEFAULTS, overrides)
      ensures this.env == env && this.before == before
    {
      config := Merged(DefaultTable.DEFAULTS, overrides);
      this.env := env;
      this.before := before;
    }

    /** `set(key, value)`: insert or replace one entry; the environment is not touched. */
    method Set(key: string, value: Option<string>)
      modifies this`config
      ensures config == old(config)[key := value]
    {
      config := config[key := value];
    }

    /** `get(key)`. */
    function Get(key: string): Result<Option<string>>
      reads this
    {
      Lookup(config, key)
    }

    /** `get_from_json(config_key, field)`, the JSON decoder given as `parse`. */
    function GetFromJson(configKey: string, field: string,
                         parse: string -> Option<map<string, string>>): Result<Option<string>>
      reads this
    {
      FieldFromJson(config, configKey, field, parse)
    }

    /** `get_all()`: the whole table. */
    function GetAll(): (r: Config)
      reads this
      ensures forall k :: Lookup(r, k) == Get(k)
    {
      config
    }

    /**
     `apply_to_environment()`: for each configured key, record the value the
     environment holds for it (if any) in the shared snapshot, then set the
     configured value or remove the key when it carries the absent marker.
     */
    method ApplyToEnvironment()
      modifies env, before
      ensures env.vars == Applied(old(env.vars), config)
      ensures before.saved == Recorded(old(before.saved), old(env.vars), config)
    {
      ghost var env0, saved0 := env.vars, before.saved;
      var todo := config.Keys;
      while todo != {}
        invariant todo <= config.Keys
        invariant forall k :: if k in config && k !in todo then AppliedAt(env.vars, env0, config, k)
                              else SameAt(env.vars, env0, k)
        invariant forall k :: if k in config && k !in todo then RecordedAt(before.saved, saved0, env0, config, k)
                              else SameAt(before.saved, saved0, k)
        decreases todo
      {
        var key :| key in todo;
        if key in env.vars {
          before.saved := before.saved[key := env.vars[key]];
        }
        match config[key] {
          case Some(value) => env.vars := env.vars[key := value];
          case None => env.vars := env.vars - {key};
        }
        todo := todo - {key};
      }
      AppliedUnique(env.vars, env0, config);
      RecordedUnique(before.saved, saved0, env0, config);
    }

    /**
     `remove_from_environment()`: for each configured key, put back the value
     the shared snapshot holds for it, or remove the key when it holds none.
     The snapshot itself is left as it is.
     */
    method RemoveFromEnvironment()
      modifies env
      ensures env.vars == Restored(old(env.vars), config, before.saved)
      ensures before.saved == old(before.saved)
    {
      ghost var env0 := env.vars;
      var todo := config.Keys;
      while todo != {}
        invariant todo <= config.Keys
        invariant forall k :: if k in config && k !in todo then RestoredAt(env.vars, env0, config, before.saved, k)
                              else SameAt(env.vars, env0, k)
        decreases todo
      {
        var key :| key in todo;
        if key in before.saved {
          env.vars := env.vars[key := before.saved[key]];
        } else {
          env.vars := env.vars - {key};
        }
        todo := todo - {key};
      }
      RestoredUnique(env.vars, env0, config, before.saved);
    }
  }
}
