/**
 Properties of the fixture that relate several of its operations: what
 building, setting and reading a table give back, and when staging followed
 by restoring leaves the process environment exactly as it was.
 */
module FixtureProperties {
  import opened ConfigMaps
  import DefaultTable
  import opened AppConfigFixture

  /** No configured key has an entry in the snapshot that its current environment value will not replace. */
  ghost predicate NoStaleEntries(env: Env, config: Config, saved: Env)
  {
    forall k :: k in config && k in saved ==> k in env
  }

  /**
   A fixture built without overrides holds exactly the defaults; an override
   replaces the default of its key and leaves every other default alone.
   */
  lemma ConstructWithOverride(key: string, value: Option<string>, other: string)
    ensures Merged(DefaultTable.DEFAULTS, map[]) == DefaultTable.DEFAULTS
    ensures Lookup(Merged(DefaultTable.DEFAULTS, map[key := value]), key) == Ok(value)
    ensures other != key ==>
              Lookup(Merged(DefaultTable.DEFAULTS, map[key := value]), other) == Lookup(DefaultTable.DEFAULTS, other)
  {
    assert DefaultTable.DEFAULTS + map[] == DefaultTable.DEFAULTS;
  }

  /** `set(k, v)` then `get(k)` gives `v`; every other key reads as before. */
  lemma SetThenGet(config: Config, key: string, value: Option<string>, other: string)
    ensures Lookup(config[key := value], key) == Ok(value)
    ensures other != key ==> Lookup(config[key := value], other) == Lookup(config, other)
  {
  }

  /**
   The round trip: staging `config` onto `env` (recording into `saved`) and
   then restoring gives back exactly `env` -- every key's value, and every
   key's absence, including those of keys staged with the absent marker --
   if and only if no configured key has a stale snapshot entry while missing
   from the environment.
   */
  lemma RoundTripExactly(env: Env, config: Config, saved: Env)
    ensures Restored(Applied(env, config), config, Recorded(saved, env, config)) == env
            <==> NoStaleEntries(env, config, saved)
  {
  }

  /** In particular, a snapshot with no entry for any configured key gives an exact round trip. */
  lemma RoundTripFromCleanSnapshot(env: Env, config: Config, saved: Env)
    requires config.Keys !! saved.Keys
    ensures Restored(Applied(env, config), config, Recorded(saved, env, config)) == env
  {
    RoundTripExactly(env, config, saved);
  }

  /**
   Key by key, and whatever the test did to the environment in between
   (`mid` is the environment just before restoring): a key outside `config`
   keeps its value in `mid`; a configured key gets back exactly its value or
   absence from before staging, unless the snapshot held a stale entry for a
   key the environment did not hold.
   */
  lemma RestoreKeyAfterTest(env: Env, mid: Env, config: Config, saved: Env, k: string)
    ensures var restored := Restored(mid, config, Recorded(saved, env, config));
            && (k !in config ==> SameAt(restored, mid, k))
            && (k in config ==> (SameAt(restored, env, k) <==> !(k in saved && k !in env)))
  {
  }

  /**
   The keys the application sets by itself during a test are in every
   fixture's table, whatever the overrides; so when such a key was absent
   before staging and the snapshot holds no entry for it, restoring removes
   it again, whatever the test set it to in between.
   */
  lemma AppSetKeyRemovedAfterTest(env: Env, mid: Env, overrides: Config, saved: Env, k: string)
    requires k in DefaultTable.APP_SET_KEYS && k !in env && k !in saved
    ensures var config := Merged(DefaultTable.DEFAULTS, overrides);
            k !in Restored(mid, config, Recorded(saved, env, config))
  {
  }

  /**
   The shared snapshot does not hurt fixtures that run one after the other
   over an environment nobody else changes: if the first one's round trip is
   exact for both tables, the second one's is too.
   */
  lemma SequentialFixturesRestore(env: Env, first: Config, second: Config, saved: Env)
    requires NoStaleEntries(env, first, saved) && NoStaleEntries(env, second, saved)
    ensures var saved1 := Recorded(saved, env, first);
            Restored(Applied(env, first), first, saved1) == env &&
            Restored(Applied(env, second), second, Recorded(saved1, env, second)) == env
  {
    RoundTripExactly(env, first, saved);
    var saved1 := Recorded(saved, env, first);
    forall k | k in second && k in saved1
      ensures k in env
    {
      assert RecordedAt(saved1, saved, env, first, k);
    }
    RoundTripExactly(env, second, saved1);
  }

  /**
   Staging twice before restoring records the staged values as the "prior"
   ones: every key staged with a value still holds that value after the
   restore, whatever the environment held before.
   */
  lemma ApplyTwiceKeepsStagedValues(env: Env, config: Config, saved: Env, key: string)
    requires key in config && config[key].Some?
    ensures var env1, saved1 := Applied(env, config), Recorded(saved, env, config);
            var env2, saved2 := Applied(env1, config), Recorded(saved1, env1, config);
            var restored := Restored(env2, config, saved2);
            key in restored && restored[key] == config[key].value
  {
    var env1, saved1 := Applied(env, config), Recorded(saved, env, config);
    var env2, saved2 := Applied(env1, config), Recorded(saved1, env1, config);
    assert AppliedAt(env1, env, config, key);
    assert RecordedAt(saved2, saved1, env1, config, key);
    assert RestoredAt(Restored(env2, config, saved2), env2, config, saved2, key);
  }

  /** So staging twice loses a prior value that differs from the staged one. */
  lemma ApplyTwiceLosesPriorValue()
    ensures var env, config := map["LOGLEVEL" := "INFO"], map["LOGLEVEL" := Some("DEBUG")];
            var env1, saved1 := Applied(env, config), Recorded(map[], env, config);
            Restored(Applied(env1, config), config, Recorded(saved1, env1, config)) != env
  {
    var env, config := map["LOGLEVEL" := "INFO"], map["LOGLEVEL" := Some("DEBUG")];
    ApplyTwiceKeepsStagedValues(env, config, map[], "LOGLEVEL");
  }

  /**
   A stale entry left in the shared snapshot for a key the environment no
   longer holds is written back by the restore, although that key was absent
   before staging.
   */
  lemma StaleEntryIsWrittenBack()
    ensures var env, config, saved := map[], map["OPENAI_API_KEY" := None], map["OPENAI_API_KEY" := "stale"];
            Restored(Applied(env, config), config, Recorded(saved, env, config)) == map["OPENAI_API_KEY" := "stale"]
  {
  }

  /** Staging is idempotent on the environment: staging again changes nothing. */
  lemma ApplyIdempotent(env: Env, config: Config)
    ensures Applied(Applied(env, config), config) == Applied(env, config)
  {
    var once := Applied(env, config);
    AppliedUnique(once, once, config);
  }

  /**
   Restoring is idempotent: a second restore with the same snapshot gives
   the same environment, because restoring never changes the snapshot.
   */
  lemma RemoveIdempotent(env: Env, config: Config, saved: Env)
    ensures Restored(Restored(env, config, saved), config, saved) == Restored(env, config, saved)
  {
  }

  /** Restoring from an empty snapshot removes every configured key and keeps every other one. */
  lemma RemoveWithEmptySnapshot(env: Env, config: Config)
    ensures Restored(env, config, map[]) == env - config.Keys
  {
  }

  /**
   A fixture's life in a test: built over a shared snapshot, staged, then
   restored. When no configured key has a stale snapshot entry for a key
   missing from the environment, the environment ends exactly as it began.
   */
  method FixtureLifecycle(env: Environment, before: Snapshot, overrides: Config)
    requires NoStaleEntries(env.vars, Merged(DefaultTable.DEFAULTS, overrides), before.saved)
    modifies env, before
    ensures env.vars == old(env.vars)
    ensures before.saved == Recorded(old(before.saved), old(env.vars), Merged(DefaultTable.DEFAULTS, overrides))
  {
    var fixture := new AppConfig(overrides, env, before);
    fixture.ApplyToEnvironment();
    fixture.RemoveFromEnvironment();
    RoundTripExactly(old(env.vars), fixture.config, old(before.saved));
  }
}
