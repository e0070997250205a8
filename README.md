# Preference store of the crop-advisory client

This project models the user-preference service of the crop-advisory web client and proves the
contract that its unit tests pin down. The service keeps one persisted preference record with
three fields:

- `language`: an optional language code with no fallback default; it reads back `null` when unset.
- `cropType`: an optional crop identifier.
- `voiceInstructions`: an accessibility flag that defaults to on.

`setLanguage`, `setCropType` and `setVoiceInstructions` each write one field of the durable medium
and leave the others alone. `getLanguage` and `getVoiceInstructions` read one field.
`loadPreferences` returns the stored record merged with the defaults. `clearPreferences` removes
everything.

The model states the contract that the service's unit tests
(`src/services/preferencesService.test.js`) assert, generalised to every prior state of the medium
and to every sequence of calls.

Two modules:

- `PreferenceRecord` (`preference_record.dfy`) is the value-level meaning. The durable medium is
  `Storage = map<Key, Value>`, kept well-typed: text under `Language` and `CropType`, a flag under
  `VoiceInstructions`. It also has the loaded record `Prefs`, `Load` (the merge with defaults),
  `Step` (one operation on the medium) and `Replay` (a session of operations). A reference
  definition, `Expected`, gives the last value written per field since the last clear. Beside
  these are the lemmas that connect the two.
- `PreferencesService` (`preferences_service.dfy`) is the service as an object. The class
  `PreferenceStore` holds the medium in a `storage` field. The setters and the reset are methods
  that reassign it under `modifies this`. The readers are functions of it. After the class there
  is one method per test case. Each one opens a service over any well-typed medium and resets it,
  which is what the test's `beforeEach` does. It then makes the test's calls, and its `ensures` is
  the test's assertions.

Each mutating method promises `storage == Step(old(storage), op)` for its own operation. So a
sequence of calls on one `PreferenceStore` leaves the medium at `Replay` of the calls made, and
the session lemmas (`ReplayLoadsLastWrites`, `UnwrittenFieldsReadDefaults`,
`SiblingWritesKeepLanguage` and `SiblingWritesKeepCropType`) carry over to the object by composing those postconditions.

## Model

| member | source | states |
|---|---|---|
| PreferenceRecord.Load | src/services/preferencesService.test.js:23-33 | loading is total on every well-typed medium. A field reads back absent exactly when nothing is stored under its key, and a stored field reads back its stored value. Voice instructions read back `true` unless `false` is stored |
| PreferenceRecord.Step | src/services/preferencesService.test.js:51-66 | each setter stores its own value under its own key, and every other key keeps its presence and its value. Clearing leaves an empty medium. The medium stays well-typed |
| PreferenceRecord.ClearedLoadsDefaults | src/services/preferencesService.test.js:15-33 | from any well-typed prior state, clear followed by load gives exactly the default record: voice instructions on, language and crop type `null` |
| PreferenceRecord.LoadStep | src/services/preferencesService.test.js:51-66 | reloading after one operation gives the earlier record with only that operation's field replaced by the written value, or the default record after a clear |
| PreferenceRecord.Replay | src/services/preferencesService.test.js:12-19 | a sequence of calls applied in order keeps the medium well-typed |
| PreferenceRecord.ReplayLoadsLastWrites | src/services/preferencesService.test.js:70-84 | for any session, the reloaded record has, per field, the last value written since the last clear. A field cleared and not written again has its default. A field the session never touched keeps its earlier value |
| PreferenceRecord.UnwrittenExpectedDefaults | src/services/preferencesService.test.js:23-33 | in the reference meaning of a session from the default record, every field the session never writes keeps its default |
| PreferenceRecord.UnwrittenFieldsReadDefaults | src/services/preferencesService.test.js:88-101 | from a cleared medium, a field no call of the session writes reads back its default: `null` for language and crop type, `true` for voice instructions |
| PreferenceRecord.SiblingWritesKeepLanguage | src/services/preferencesService.test.js:49-66 | a language once set survives any number of later crop-type or voice writes that have no clear between them |
| PreferenceRecord.SiblingWritesKeepCropType | src/services/preferencesService.test.js:49-66 | a crop type once set survives any number of later language or voice writes that have no clear between them |
| PreferencesService.PreferenceStore.constructor | src/services/preferencesService.test.js:59-61 | a service opened over a medium left by an earlier session sees exactly that medium |
| PreferencesService.PreferenceStore.LoadPreferences | src/services/preferencesService.test.js:59-65 | the loaded record is the stored record merged with defaults, and from an empty medium it is the default record |
| PreferencesService.PreferenceStore.GetLanguage | src/services/preferencesService.test.js:42-46 | returns `null` exactly when no language is stored, and it always agrees with the language of a full load |
| PreferencesService.PreferenceStore.GetVoiceInstructions | src/services/preferencesService.test.js:75-83 | returns `false` exactly when `false` is stored, and it always agrees with the flag of a full load |
| PreferencesService.PreferenceStore.SetLanguage | src/services/preferencesService.test.js:37-47 | writes only the language key. A reload gives the earlier record with the language replaced, and `GetLanguage` returns exactly the code written |
| PreferencesService.PreferenceStore.SetCropType | src/services/preferencesService.test.js:55-57 | writes only the crop key. A reload gives the earlier record with the crop type replaced, so language and voice are untouched |
| PreferencesService.PreferenceStore.SetVoiceInstructions | src/services/preferencesService.test.js:70-84 | writes only the voice key. A reload gives the earlier record with the flag replaced, and `GetVoiceInstructions` returns the flag written |
| PreferencesService.PreferenceStore.ClearPreferences | src/services/preferencesService.test.js:88-101 | empties the medium. The reload is the default record and `GetLanguage` returns `null` |
| PreferencesService.ShouldLoadDefaultPreferences | src/services/preferencesService.test.js:23-33 | after a reset from any well-typed medium, the loaded record is defined, it is the default record, and its voice instructions are on |
| PreferencesService.ShouldSetAndGetLanguage | src/services/preferencesService.test.js:37-47 | after a reset and `setLanguage('hi')`, `getLanguage` returns `'hi'` |
| PreferencesService.ShouldPersistPreferences | src/services/preferencesService.test.js:51-66 | after a reset, `setLanguage('ta')` and `setCropType('rice')`, a service reopened over a copy of the medium as it was left loads `'ta'` and `'rice'` |
| PreferencesService.ShouldToggleVoiceInstructions | src/services/preferencesService.test.js:70-84 | after a reset, `setVoiceInstructions(false)` reads back `false`, and then `setVoiceInstructions(true)` reads back `true` |
| PreferencesService.ShouldClearPreferences | src/services/preferencesService.test.js:88-101 | after `setLanguage('en')` and then `clearPreferences`, `getLanguage` returns `null` |

## Left out

- The tests name localStorage as the backing (lines 3 and 11 of
  `src/services/preferencesService.test.js`), but they fix neither its key names nor its
  serialisation. So the medium is an abstract map from `Key` to `Value`.
- Corrupt storage is not modelled, because the tests never exercise it. On a badly typed medium
  `loadPreferences` would be expected to fall back to the defaults. The model instead rules such a
  medium out: the constructor and `Load` require `WellTyped`.
- The crop-advice client (`getCropAdvice`, `testConnection`) is not modelled. It is an asynchronous
  network client over `fetch`, and its tests only check that its exports exist and that `fetch`
  can be mocked.
- The home page component is not modelled, because it is UI and its tests only check that it is
  exported.
- The test-runner sanity checks in `src/basic.test.js` are not modelled: they contain no logic of
  the application.
- The test framework itself (`describe`, `it`, `beforeEach`) is not modelled. Each test-case method
  starts with the reset that `beforeEach` performs.
- The service is a module-level singleton in the source. Here it is an object that holds its medium
  as a map value. A page refresh is modelled as opening a second object over a copy of the medium as
  it was left. Later writes through either object are therefore invisible to the other, whereas
  localStorage is one shared medium. The refresh scenario makes no writes after reopening, so its
  result is unaffected.
- PreferencesService.ShouldLoadDefaultPreferences: the test asserts only that the record is defined
  and that its voice flag is on. The method also promises the full default record, with language
  and crop type `null`.
