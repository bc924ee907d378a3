/**
 * `MainViewModel`: the state store of the newer front end. Each
 * `MutableStateFlow` is a field; the shared preferences are the `prefs` field.
 */
module ViewModel {
  import opened Common
  import opened Preferences
  import opened Profiles

  /** The profile list, the selection and the preferences after a load. */
  datatype Loaded = Loaded(profiles: seq<Profile>, selected: Option<Profile>, prefs: Prefs)

  /**
   * `loadProfiles` on the stored preferences: the decoded list with its first
   * element selected, or, when nothing is stored or it does not decode, the
   * default profile, selected and written back.
   */
  ghost function LoadProfilesResult(stored: Prefs, codec: Codec, freshId: string): Loaded {
    var text := stored.GetString(KEY_PROFILES);
    if text.Some? && codec.decode(text.value).Some? then
      var decoded := codec.decode(text.value).value;
      Loaded(decoded, FirstOrNull(decoded), stored)
    else
      var repaired := [DefaultProfile(freshId)];
      Loaded(repaired, Some(DefaultProfile(freshId)), stored.PutString(KEY_PROFILES, codec.encode(repaired)))
  }

  /** After a load the selection is the first profile, and nothing exactly when the list is empty. */
  lemma LoadSelectsFirst(stored: Prefs, codec: Codec, freshId: string)
    ensures var r := LoadProfilesResult(stored, codec, freshId);
            && (r.selected.None? <==> r.profiles == [])
            && (r.selected.Some? ==> r.selected.value == r.profiles[0])
  {
  }

  /** Missing or undecodable data gives exactly the default profile, and persists it. */
  lemma LoadRepairsToDefault(stored: Prefs, codec: Codec, freshId: string)
    requires stored.GetString(KEY_PROFILES).None? || codec.decode(stored.GetString(KEY_PROFILES).value).None?
    ensures var r := LoadProfilesResult(stored, codec, freshId);
            && r.profiles == [Profile(freshId, "Default", "192.168.1.100", 8888, 128000, 44100, "Stereo", 0.0, 0.0)]
            && r.selected == Some(r.profiles[0])
            && r.prefs.GetString(KEY_PROFILES) == Some(codec.encode(r.profiles))
  {
  }

  /** Decodable data is taken as is and nothing is written. */
  lemma LoadKeepsDecoded(stored: Prefs, codec: Codec, freshId: string, text: string, decoded: seq<Profile>)
    requires stored.GetString(KEY_PROFILES) == Some(text) && codec.decode(text) == Some(decoded)
    ensures LoadProfilesResult(stored, codec, freshId) == Loaded(decoded, FirstOrNull(decoded), stored)
  {
  }

  /**
   * When the codec reads back what it wrote, loading the repaired preferences
   * again gives the same single profile (with the same id) and writes nothing.
   */
  lemma RepairIsStable(stored: Prefs, codec: Codec, freshId: string, laterId: string)
    requires codec.decode(codec.encode([DefaultProfile(freshId)])) == Some([DefaultProfile(freshId)])
    requires stored.GetString(KEY_PROFILES).None? || codec.decode(stored.GetString(KEY_PROFILES).value).None?
    ensures var first := LoadProfilesResult(stored, codec, freshId);
            LoadProfilesResult(first.prefs, codec, laterId) == first
  {
  }

  class MainViewModel {
    var isServiceRunning: bool
    var stats: string
    var streamVolume: real
    var audioLevel: real
    var profiles: seq<Profile>
    var selectedProfile: Option<Profile>
    var visualizationEnabled: bool
    var prefs: Prefs
    const codec: Codec

    /** The state `loadProfiles` leaves behind. */
    ghost predicate LoadedFrom(stored: Prefs, freshId: string)
      reads this
    {
      Loaded(profiles, selectedProfile, prefs) == LoadProfilesResult(stored, codec, freshId)
    }

    /** `init { loadSettings(); loadProfiles() }` over the field initialisers. */
    constructor (stored: Prefs, codec: Codec, freshId: string)
      ensures this.codec == codec
      ensures !isServiceRunning && stats == "Not Connected" && audioLevel == 0.0
      ensures streamVolume == stored.GetFloat(KEY_STREAM_VOLUME, 1.0)
      ensures visualizationEnabled == stored.GetBoolean(KEY_VISUALIZATION_ENABLED, true)
      ensures LoadedFrom(stored, freshId)
    {
      isServiceRunning := false;
      stats := "Not Connected";
      streamVolume := 1.0;
      audioLevel := 0.0;
      profiles := [];
      selectedProfile := None;
      visualizationEnabled := true;
      prefs := stored;
      this.codec := codec;
      new;
      LoadSettings();
      LoadProfiles(freshId);
    }

    method LoadSettings()
      modifies this
      ensures streamVolume == prefs.GetFloat(KEY_STREAM_VOLUME, 1.0)
      ensures visualizationEnabled == prefs.GetBoolean(KEY_VISUALIZATION_ENABLED, true)
      ensures prefs == old(prefs) && profiles == old(profiles) && selectedProfile == old(selectedProfile)
      ensures isServiceRunning == old(isServiceRunning) && stats == old(stats) && audioLevel == old(audioLevel)
    {
      streamVolume := prefs.GetFloat(KEY_STREAM_VOLUME, 1.0);
      visualizationEnabled := prefs.GetBoolean(KEY_VISUALIZATION_ENABLED, true);
    }

    method LoadProfiles(freshId: string)
      modifies this
      ensures LoadedFrom(old(prefs), freshId)
      ensures isServiceRunning == old(isServiceRunning) && stats == old(stats) && audioLevel == old(audioLevel)
      ensures streamVolume == old(streamVolume) && visualizationEnabled == old(visualizationEnabled)
    {
      var profilesJson := prefs.GetString(KEY_PROFILES);
      if profilesJson.Some? {
        var decoded := codec.decode(profilesJson.value);
        if decoded.Some? {
          profiles := decoded.value;
          selectedProfile := FirstOrNull(profiles);
        } else {
          CreateDefaultProfile(freshId);
        }
      } else {
        CreateDefaultProfile(freshId);
      }
    }

    method CreateDefaultProfile(freshId: string)
      modifies this
      ensures profiles == [DefaultProfile(freshId)] && selectedProfile == Some(DefaultProfile(freshId))
      ensures prefs == old(prefs).PutString(KEY_PROFILES, codec.encode(profiles))
      ensures isServiceRunning == old(isServiceRunning) && stats == old(stats) && audioLevel == old(audioLevel)
      ensures streamVolume == old(streamVolume) && visualizationEnabled == old(visualizationEnabled)
    {
      var defaultProfile := DefaultProfile(freshId);
      profiles := [defaultProfile];
      selectedProfile := Some(defaultProfile);
      SaveProfiles(profiles);
    }

    method UpdateServiceRunning(isRunning: bool)
      modifies this`isServiceRunning
      ensures isServiceRunning == isRunning
    {
      isServiceRunning := isRunning;
    }

    method UpdateStats(stats: string)
      modifies this`stats
      ensures this.stats == stats
    {
      this.stats := stats;
    }

    method UpdateStreamVolume(volume: real)
      modifies this`streamVolume, this`prefs
      ensures streamVolume == volume
      ensures prefs == old(prefs).PutFloat(KEY_STREAM_VOLUME, volume)
    {
      streamVolume := volume;
      prefs := prefs.PutFloat(KEY_STREAM_VOLUME, volume);
    }

    method UpdateAudioLevel(level: real)
      modifies this`audioLevel
      ensures audioLevel == level
    {
      audioLevel := level;
    }

    /** Replace the list, keep the selection valid, and persist the list. */
    method UpdateProfiles(newProfiles: seq<Profile>)
      modifies this`profiles, this`selectedProfile, this`prefs
      ensures profiles == newProfiles
      ensures selectedProfile == Reselect(newProfiles, old(selectedProfile))
      ensures selectedProfile.None? <==> newProfiles == []
      ensures selectedProfile.Some? ==> selectedProfile.value in newProfiles
      ensures prefs == old(prefs).PutString(KEY_PROFILES, codec.encode(newProfiles))
    {
      profiles := newProfiles;
      var currentSelected := selectedProfile;
      if currentSelected.Some? {
        var updatedProfile := Find(newProfiles, currentSelected.value.id);
        if updatedProfile.Some? {
          selectedProfile := updatedProfile;
        } else {
          selectedProfile := FirstOrNull(newProfiles);
        }
      } else {
        selectedProfile := FirstOrNull(newProfiles);
      }
      SaveProfiles(newProfiles);
    }

    /** Any profile may be selected; membership in the list is not checked. */
    method SelectProfile(profile: Profile)
      modifies this`selectedProfile
      ensures selectedProfile == Some(profile)
    {
      selectedProfile := Some(profile);
    }

    method UpdateVisualizationEnabled(enabled: bool)
      modifies this`visualizationEnabled
      ensures visualizationEnabled == enabled
    {
      visualizationEnabled := enabled;
    }

    method SaveProfiles(profiles: seq<Profile>)
      modifies this`prefs
      ensures prefs == old(prefs).PutString(KEY_PROFILES, codec.encode(profiles))
    {
      prefs := prefs.PutString(KEY_PROFILES, codec.encode(profiles));
    }
  }
}
