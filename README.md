# AppConfig: the functional-test configuration fixture, in Dafny

This project models `AppConfig`, the fixture that the functional tests of the
chat-with-your-data solution accelerator use to stage configuration. A
fixture holds a configuration table. The table maps each setting name to a
string, or to `None`, which means "this variable must not be set". The table
starts as a copy of a built-in default table with the caller's overrides
merged on top. It can be edited and read.

`apply_to_environment` writes the table into the process environment. Before
it touches each key, it records that key's current value in a snapshot.
`remove_from_environment` later puts each recorded value back, and removes
every configured key that has no recorded value. The snapshot is a class
attribute: every fixture shares the one dictionary and nothing ever clears
it.

Files:

- `config_maps.dfy` (module `ConfigMaps`): the values. It defines the table
  (`Config`), the environment and the snapshot (`Env`) and the errors. It
  also defines one function per operation on them (`Merged`, `Lookup`,
  `FieldFromJson`, `Applied`, `Recorded`, `Restored`). Each function's
  contract describes its result key by key (`AppliedAt`, `RecordedAt`,
  `RestoredAt`). The `...Unique` lemmas prove that the key-by-key description
  determines the map.
- `default_table.dfy` (module `DefaultTable`): the built-in default table,
  entry for entry.
- `app_config.dfy` (module `AppConfigFixture`): the fixture as a class with a
  `config` field. The process environment (`Environment`) and the shared
  snapshot (`Snapshot`) are objects of their own, handed to the constructor,
  so several fixtures can share one snapshot as in the source. The two
  staging methods are loops over the configured keys. Each is proved against
  its specification function.
- `properties.dfy` (module `FixtureProperties`): lemmas that relate several
  operations. They cover the round trip, staging twice, a stale snapshot
  entry, idempotence, and fixtures run one after another.

The central result is `RoundTripExactly`. Staging and then restoring gives
back exactly the original environment if and only if every configured key
that has a snapshot entry is also present in the environment. "Exactly" means
every value, and every absence, including that of keys staged as `None`.
When such a key is present, staging overwrites its snapshot entry. When it is
missing, the stale entry is written back by the restore
(`StaleEntryIsWrittenBack`). `RestoreKeyAfterTest` states the same key by
key when the test itself changed the environment between staging and
restoring, as the application does with the three `OPENAI_*` keys
(`AppSetKeyRemovedAfterTest`). Staging twice before restoring records the
staged values as the prior ones (`ApplyTwiceKeepsStagedValues`,
`ApplyTwiceLosesPriorValue`).

## Model

| member | source | states |
|---|---|---|
| `AppConfigFixture.Snapshot.constructor` | code/tests/functional/app_config.py:12 | the shared snapshot of prior values starts empty |
| `ConfigMaps.Merged` | code/tests/functional/app_config.py:88-89 | the merged table has the keys of both tables; an override's value wins on a collision and every other key keeps its default |
| `AppConfigFixture.AppConfig.constructor` | code/tests/functional/app_config.py:88-89 | a new fixture's table is the default table merged with the overrides; the environment and the shared snapshot are the ones passed in |
| `FixtureProperties.ConstructWithOverride` | code/tests/functional/app_config.py:88-95 | with no overrides the table is exactly the defaults; an override is what `get` returns for its key, and every other key reads as its default |
| `DefaultTable.AppSetKeysDefaultToAbsent` | code/tests/functional/app_config.py:80-84 | the three keys the application sets by itself are in the default table with the absent marker |
| `AppConfigFixture.AppConfig.Set` | code/tests/functional/app_config.py:91-92 | the table afterwards is the old one with `key` mapped to `value`; nothing else changes |
| `ConfigMaps.Lookup` | code/tests/functional/app_config.py:94-95 | succeeds exactly when the key is in the table, with the stored value (possibly `None`); otherwise a `KeyError` for that key, never a default |
| `FixtureProperties.SetThenGet` | code/tests/functional/app_config.py:91-95 | after `set(k, v)`, `get(k)` returns `v` and every other key reads as before |
| `ConfigMaps.FieldFromJson` | code/tests/functional/app_config.py:97-99 | a missing key is a `KeyError`; an absent-marker value is a `TypeError`; text the decoder rejects is a decode error; otherwise the field's value, or `None` when the object lacks the field |
| `AppConfigFixture.AppConfig.GetAll` | code/tests/functional/app_config.py:101-102 | every lookup in the returned table gives what `get` gives on the fixture |
| `ConfigMaps.Applied` | code/tests/functional/app_config.py:104-115 | after staging, a key with a value holds it, a key with `None` is missing, and every key outside the table is as it was |
| `ConfigMaps.Recorded` | code/tests/functional/app_config.py:105-108 | after staging, each configured key the environment held has that prior value in the snapshot; every other snapshot entry is as it was |
| `ConfigMaps.AppliedUnique` | code/tests/functional/app_config.py:104-115 | any environment that agrees with the staging description at every key is the staged environment |
| `ConfigMaps.RecordedUnique` | code/tests/functional/app_config.py:105-108 | any snapshot that agrees with the recording description at every key is the recorded snapshot |
| `AppConfigFixture.AppConfig.ApplyToEnvironment` | code/tests/functional/app_config.py:104-115 | the loop leaves the environment equal to `Applied` of the old environment and the shared snapshot equal to `Recorded` of the old snapshot and environment |
| `ConfigMaps.Restored` | code/tests/functional/app_config.py:117-124 | after restoring, a configured key with a snapshot entry holds that value, any other configured key is missing, and every key outside the table is as it was |
| `ConfigMaps.RestoredUnique` | code/tests/functional/app_config.py:117-124 | any environment that agrees with the restoring description at every key is the restored environment |
| `AppConfigFixture.AppConfig.RemoveFromEnvironment` | code/tests/functional/app_config.py:117-124 | the loop leaves the environment equal to `Restored` of the old environment; the snapshot is unchanged |
| `FixtureProperties.RoundTripExactly` | code/tests/functional/app_config.py:104-124 | staging then restoring returns the environment exactly, values and absences alike, if and only if no configured key has a snapshot entry while missing from the environment |
| `FixtureProperties.RoundTripFromCleanSnapshot` | code/tests/functional/app_config.py:104-124 | when nothing changes the environment between staging and restoring, a snapshot with no entry for any configured key always gives an exact round trip |
| `FixtureProperties.RestoreKeyAfterTest` | code/tests/functional/app_config.py:104-124 | whatever the test did to the environment between staging and restoring: a key outside the table keeps its value from just before the restore, and a configured key gets back exactly its value or absence from before staging if and only if the snapshot did not hold a stale entry for a key the environment lacked |
| `FixtureProperties.AppSetKeyRemovedAfterTest` | code/tests/functional/app_config.py:80-84 | a key the application sets by itself during the test, absent before staging and with no snapshot entry, is absent after restoring, whatever the test set it to and whatever the overrides |
| `FixtureProperties.SequentialFixturesRestore` | code/tests/functional/app_config.py:12 | two fixtures that share the class-level snapshot and run one after the other both restore the environment exactly, when neither table has a stale entry at the start |
| `FixtureProperties.ApplyTwiceKeepsStagedValues` | code/tests/functional/app_config.py:105-108 | staging twice then restoring leaves every key staged with a value holding that value |
| `FixtureProperties.ApplyTwiceLosesPriorValue` | code/tests/functional/app_config.py:104-124 | an example where staging twice then restoring does not give back the original environment |
| `FixtureProperties.StaleEntryIsWrittenBack` | code/tests/functional/app_config.py:117-124 | an example where a stale snapshot entry is written back for a key that was absent before staging |
| `FixtureProperties.ApplyIdempotent` | code/tests/functional/app_config.py:104-115 | staging a second time leaves the environment as the first staging did |
| `FixtureProperties.RemoveIdempotent` | code/tests/functional/app_config.py:117-124 | restoring twice with the same snapshot gives the same environment as restoring once |
| `FixtureProperties.RemoveWithEmptySnapshot` | code/tests/functional/app_config.py:117-124 | restoring from an empty snapshot removes every configured key and leaves every other key alone |
| `FixtureProperties.FixtureLifecycle` | code/tests/functional/app_config.py:88-124 | constructing a fixture, staging and restoring with no stale entries leaves the environment exactly as it began, and the snapshot holds the recorded prior values |

## Left out

- Logging (code/tests/functional/app_config.py:111, 114, 120, 123): it produces output only and does not change any state.
- The process environment is a map held by an `Environment` object. Operating-system behaviour is not modelled: rejected names or values, case-insensitive names on some platforms, and changes made by other threads or processes.
- How three default values are computed is not modelled. The base64 encoding of the account key is written out as its precomputed value. `CONVERSATION_FLOW_CUSTOM` stands for the application's `ConversationFlow.CUSTOM.value`, and `TIKTOKEN_CACHE_DIR` for the `resources` directory beside the test module. Both are constants whose values the model does not fix; `ConversationFlow` is not part of this model.
- `json.loads` is not modelled. `FieldFromJson` takes the decoder as a parameter `parse`, which returns the decoded object or `None`. A field value that is not a string, and a document that is valid JSON but not an object, are not distinguished from a decode error. So the decoded `accountName` of the default blob-storage entry is not proved.
- `AppConfigFixture.AppConfig.GetAll`: returns the table as a value. The source returns the live dictionary, so a caller can change the fixture through it; that aliasing is not modelled.
- The class functions `Get` and `GetFromJson` only call `ConfigMaps.Lookup` and `ConfigMaps.FieldFromJson` on the fixture's table; their rows are those functions.
- The class attribute `config` is modelled as the constant `DefaultTable.DEFAULTS`. The source never changes it: each fixture assigns a new merged dictionary to its own `config`.
- Dictionary iteration order: the staging loops take the configured keys in an arbitrary order. Keys are distinct and each is visited once, so the order does not affect the result.
- `DefaultTable.AppSetKeysDefaultToAbsent`: states that the three application-set keys are absent-marked. It does not state the converse, that no other default is absent-marked, although the table shows it.
