/**
 * The preference service as an object over its durable medium: the setters
 * and the reset change the stored map in place, the readers are functions of
 * it. The methods after the class replay the service's own scenarios, each
 * starting from a reset (as every scenario does) on any well-typed medium.
 */
module PreferencesService {
  import opened PreferenceRecord

  class PreferenceStore {
    /** The durable key/value medium the service reads and writes. */
    var storage: Storage

    ghost predicate Valid()
      reads this
    {
      WellTyped(storage)
    }

    /** Opens the service over a medium as it was left by an earlier session. */
    constructor (medium: Storage)
      requires WellTyped(medium)
      ensures Valid() && storage == medium
    {
      storage := medium;
    }

    /** `loadPreferences`: the stored record merged with defaults; no side effect. */
    function LoadPreferences(): (p: Prefs)
      reads this
      requires Valid()
      ensures storage == map[] ==> p == Defaults
      ensures p == Load(storage)
    {
      Load(storage)
    }

    /** `getLanguage`: the stored language code, or `null`; it agrees with a full load. */
    function GetLanguage(): (r: Option<string>)
      reads this
      requires Valid()
      ensures r == LoadPreferences().language
      ensures r == None <==> Language !in storage
    {
      if Language in storage then Some(storage[Language].text) else None
    }

    /** `getVoiceInstructions`: `false` only when `false` was stored; it agrees with a full load. */
    function GetVoiceInstructions(): (r: bool)
      reads this
      requires Valid()
      ensures r == LoadPreferences().voiceInstructions
      ensures !r <==> VoiceInstructions in storage && storage[VoiceInstructions] == Flag(false)
    {
      if VoiceInstructions in storage then storage[VoiceInstructions].enabled else true
    }

    method SetLanguage(code: string)
      requires Valid()
      modifies this
      ensures Valid()
      ensures storage == Step(old(storage), Op.SetLanguage(code))
      ensures LoadPreferences() == old(LoadPreferences()).(language := Some(code))
      ensures GetLanguage() == Some(code)
    {
      storage := storage[Language := Text(code)];
    }

    method SetCropType(crop: string)
      requires Valid()
      modifies this
      ensures Valid()
      ensures storage == Step(old(storage), Op.SetCropType(crop))
      ensures LoadPreferences() == old(LoadPreferences()).(cropType := Some(crop))
    {
      storage := storage[CropType := Text(crop)];
    }

    method SetVoiceInstructions(enabled: bool)
      requires Valid()
      modifies this
      ensures Valid()
      ensures storage == Step(old(storage), Op.SetVoiceInstructions(enabled))
      ensures LoadPreferences() == old(LoadPreferences()).(voiceInstructions := enabled)
      ensures GetVoiceInstructions() == enabled
    {
      storage := storage[VoiceInstructions := Flag(enabled)];
    }

    /** `clearPreferences`: removes every stored key at once. */
    method ClearPreferences()
      requires Valid()
      modifies this
      ensures Valid()
      ensures storage == Step(old(storage), Op.ClearPreferences)
      ensures LoadPreferences() == Defaults
      ensures GetLanguage() == None
    {
      storage := map[];
    }
  }

  /** After a reset, loading gives a defined record with voice instructions on. */
  method ShouldLoadDefaultPreferences(medium: Storage) returns (prefs: Prefs)
    requires WellTyped(medium)
    ensures prefs.voiceInstructions
    ensures prefs == Defaults
  {
    var service := new PreferenceStore(medium);
    service.ClearPreferences();
    prefs := service.LoadPreferences();
  }

  /** A language that was set reads back exactly. */
  method ShouldSetAndGetLanguage(medium: Storage) returns (lang: Option<string>)
    requires WellTyped(medium)
    ensures lang == Some("hi")
  {
    var service := new PreferenceStore(medium);
    service.ClearPreferences();
    service.SetLanguage("hi");
    lang := service.GetLanguage();
  }

  /**
   * Language then crop type, then a reload by a service reopened over a copy
   * of the medium as it was left (a page refresh): both written values come back.
   */
  method ShouldPersistPreferences(medium: Storage) returns (newPrefs: Prefs)
    requires WellTyped(medium)
    ensures newPrefs.language == Some("ta")
    ensures newPrefs.cropType == Some("rice")
  {
    var service := new PreferenceStore(medium);
    service.ClearPreferences();
    service.SetLanguage("ta");
    service.SetCropType("rice");
    var reopened := new PreferenceStore(service.storage);
    newPrefs := reopened.LoadPreferences();
  }

  /** Voice instructions toggled off and on again: the last write wins each time. */
  method ShouldToggleVoiceInstructions(medium: Storage) returns (afterOff: bool, afterOn: bool)
    requires WellTyped(medium)
    ensures !afterOff
    ensures afterOn
  {
    var service := new PreferenceStore(medium);
    service.ClearPreferences();
    service.SetVoiceInstructions(false);
    afterOff := service.GetVoiceInstructions();
    service.SetVoiceInstructions(true);
    afterOn := service.GetVoiceInstructions();
  }

  /** A language set and then cleared reads back `null`: it has no fallback default. */
  method ShouldClearPreferences(medium: Storage) returns (lang: Option<string>)
    requires WellTyped(medium)
    ensures lang == None
  {
    var service := new PreferenceStore(medium);
    service.ClearPreferences();
    service.SetLanguage("en");
    service.ClearPreferences();
    lang := service.GetLanguage();
  }
}
