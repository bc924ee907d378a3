/**
 * `MainActivity` of the newer package, which keeps its own copy of the state
 * (it does not use `MainViewModel`): the streaming session is the single flag
 * `isServiceRunning`, everything handed to the operating system is appended
 * to `sent`, and the shared preferences are `prefs`.
 */
module Activity {
  import opened Common
  import opened Preferences
  import opened Profiles
  import opened Messages
  import opened ViewModel
  import CaptureService
  import ProfileScreen

  /**
   * The activity's `loadProfiles` (volume aside): like the view model's, except
   * that when nothing is stored the default profile is NOT written back; only
   * a string that fails to decode is overwritten.
   */
  ghost function ActivityLoadResult(stored: Prefs, codec: Codec, freshId: string): Loaded {
    var text := stored.GetString(KEY_PROFILES);
    if text.None? then
      Loaded([DefaultProfile(freshId)], Some(DefaultProfile(freshId)), stored)
    else if codec.decode(text.value).Some? then
      var decoded := codec.decode(text.value).value;
      Loaded(decoded, FirstOrNull(decoded), stored)
    else
      var repaired := [DefaultProfile(freshId)];
      Loaded(repaired, Some(DefaultProfile(freshId)), stored.PutString(KEY_PROFILES, codec.encode(repaired)))
  }

  /**
   * The two loads agree on the list and the selection always, and on the
   * preferences except when nothing is stored: the activity then leaves them
   * as they are, so the next start builds a default profile with a new id.
   */
  lemma ActivityLoadMatchesViewModel(stored: Prefs, codec: Codec, freshId: string)
    ensures var a, v := ActivityLoadResult(stored, codec, freshId), LoadProfilesResult(stored, codec, freshId);
            && a.profiles == v.profiles && a.selected == v.selected
            && (stored.GetString(KEY_PROFILES).Some? ==> a.prefs == v.prefs)
            && (stored.GetString(KEY_PROFILES).None? ==> a.prefs == stored && v.prefs != stored)
  {
    if stored.GetString(KEY_PROFILES).None? {
      var v := LoadProfilesResult(stored, codec, freshId);
      assert v.prefs.GetString(KEY_PROFILES).Some?;
    }
  }

  /** With nothing stored, a second start again finds nothing and uses the id it is given. */
  lemma AbsentProfilesStayAbsent(stored: Prefs, codec: Codec, freshId: string, laterId: string)
    requires stored.GetString(KEY_PROFILES).None?
    ensures var first := ActivityLoadResult(stored, codec, freshId);
            && first.profiles == [DefaultProfile(freshId)]
            && ActivityLoadResult(first.prefs, codec, laterId).profiles == [DefaultProfile(laterId)]
  {
  }

  /** The start command built from a profile and the current volume. */
  function StartCommandFor(resultCode: int, data: Option<ProjectionGrant>, profile: Profile, volume: real): (c: StartCommand)
    ensures c.resultCode == resultCode && c.data == data && c.volume == volume
    ensures (c.serverIp, c.serverPort, c.bitrate, c.sampleRate, c.channelConfig, c.bass, c.treble)
         == (profile.ipAddress, profile.port, profile.bitrate, profile.sampleRate,
             profile.channelConfig, profile.bass, profile.treble)
  {
    StartCommand(resultCode, data, profile.ipAddress, profile.port, profile.bitrate, profile.sampleRate,
                 profile.channelConfig, profile.bass, profile.treble, volume)
  }

  /** The broadcasts the profile screen sent, as entries of the activity's log. */
  function Broadcasts(intents: seq<Intent>): (r: seq<Outgoing>)
    ensures |r| == |intents|
    ensures forall i :: 0 <= i < |r| ==> r[i] == SendBroadcast(intents[i])
  {
    seq(|intents|, i requires 0 <= i < |intents| => SendBroadcast(intents[i]))
  }

  class MainActivity {
    var isServiceRunning: bool
    var stats: string
    var streamVolume: real
    var audioLevel: real
    var profiles: seq<Profile>
    var selectedProfile: Option<Profile>
    var visualizationEnabled: bool
    /** The "Settings" shared preferences. */
    var prefs: Prefs
    /** Broadcasts, service starts and stops, and capture requests, oldest first. */
    var sent: seq<Outgoing>
    const codec: Codec

    /** The field initialisers. */
    constructor (stored: Prefs, codec: Codec)
      ensures !isServiceRunning && stats == "Not Connected" && streamVolume == 1.0 && audioLevel == 0.0
      ensures profiles == [] && selectedProfile == None && visualizationEnabled
      ensures prefs == stored && sent == [] && this.codec == codec
    {
      isServiceRunning := false;
      stats := "Not Connected";
      streamVolume := 1.0;
      audioLevel := 0.0;
      profiles := [];
      selectedProfile := None;
      visualizationEnabled := true;
      prefs := stored;
      sent := [];
      this.codec := codec;
    }

    /** `onCreate` without the UI: the visualisation switch, then the profiles. */
    method OnCreate(freshId: string)
      modifies this
      ensures visualizationEnabled == old(prefs).GetBoolean(KEY_VISUALIZATION_ENABLED, true)
      ensures streamVolume == old(prefs).GetFloat(KEY_STREAM_VOLUME, 1.0)
      ensures Loaded(profiles, selectedProfile, prefs) == ActivityLoadResult(old(prefs), codec, freshId)
      ensures isServiceRunning == old(isServiceRunning) && stats == old(stats)
      ensures audioLevel == old(audioLevel) && sent == old(sent)
    {
      visualizationEnabled := prefs.GetBoolean(KEY_VISUALIZATION_ENABLED, true);
      LoadProfiles(freshId);
    }

    method LoadProfiles(freshId: string)
      modifies this`streamVolume, this`profiles, this`selectedProfile, this`prefs
      ensures streamVolume == old(prefs).GetFloat(KEY_STREAM_VOLUME, 1.0)
      ensures Loaded(profiles, selectedProfile, prefs) == ActivityLoadResult(old(prefs), codec, freshId)
    {
      streamVolume := prefs.GetFloat(KEY_STREAM_VOLUME, 1.0);
      var profilesJson := prefs.GetString(KEY_PROFILES);
      if profilesJson.Some? {
        var decoded := codec.decode(profilesJson.value);
        if decoded.Some? {
          profiles := decoded.value;
          selectedProfile := FirstOrNull(profiles);
        } else {
          CreateDefaultProfile(freshId);
          SaveProfiles(profiles);
        }
      } else {
        CreateDefaultProfile(freshId);
      }
    }

    /** Only the fields; nothing is written. */
    method CreateDefaultProfile(freshId: string)
      modifies this`profiles, this`selectedProfile
      ensures profiles == [DefaultProfile(freshId)] && selectedProfile == Some(profiles[0])
    {
      profiles := [DefaultProfile(freshId)];
      selectedProfile := Some(profiles[0]);
    }

    /** Replace and persist the list; the selection is left as it was, even if stale. */
    method SaveProfiles(newProfiles: seq<Profile>)
      modifies this`profiles, this`prefs
      ensures profiles == newProfiles
      ensures prefs == old(prefs).PutString(KEY_PROFILES, codec.encode(newProfiles))
    {
      profiles := newProfiles;
      prefs := prefs.PutString(KEY_PROFILES, codec.encode(newProfiles));
    }

    /** `onResume`: the flag is taken from the service, whatever it was. */
    method OnResume(worker: CaptureService.RunningFlag)
      modifies this`isServiceRunning
      ensures isServiceRunning == worker.isRunning
    {
      isServiceRunning := worker.isRunning;
    }

    /** `startStopService`: stop when running; otherwise only ask for capture consent. */
    method StartStopService()
      modifies this`isServiceRunning, this`stats, this`sent
      ensures old(isServiceRunning) ==>
                && !isServiceRunning && stats == "Not Connected" && sent == old(sent) + [StopService]
      ensures !old(isServiceRunning) ==>
                && !isServiceRunning && stats == old(stats) && sent == old(sent) + [LaunchScreenCapture]
    {
      if isServiceRunning {
        sent := sent + [StopService];
        isServiceRunning := false;
        stats := "Not Connected";
      } else {
        sent := sent + [LaunchScreenCapture];
      }
    }

    /**
     * The `startMediaProjection` callback: on RESULT_OK with a profile selected,
     * one start command from that profile and the current volume; otherwise
     * nothing.
     */
    method OnProjectionResult(resultCode: int, data: Option<ProjectionGrant>)
      modifies this`isServiceRunning, this`sent
      ensures resultCode == RESULT_OK && selectedProfile.Some? ==>
                && isServiceRunning
                && sent == old(sent) + [StartForegroundService(
                                          StartCommandFor(resultCode, data, selectedProfile.value, streamVolume))]
      ensures !(resultCode == RESULT_OK && selectedProfile.Some?) ==>
                isServiceRunning == old(isServiceRunning) && sent == old(sent)
    {
      if resultCode == RESULT_OK {
        if selectedProfile.Some? {
          var profile := selectedProfile.value;
          sent := sent + [StartForegroundService(StartCommandFor(resultCode, data, profile, streamVolume))];
          isServiceRunning := true;
        }
      }
    }

    /**
     * `statsReceiver.onReceive`: STATS takes the text ("" when missing) and the
     * service's flag; AUDIO_LEVEL takes the level (0 when missing) only while
     * the visualisation is on; anything else, or no intent, changes nothing.
     */
    method OnStatsReceive(intent: Option<Intent>, worker: CaptureService.RunningFlag)
      modifies this`stats, this`isServiceRunning, this`audioLevel
      ensures intent.Some? && intent.value.action == ACTION_STATS ==>
                && stats == (match GetStringExtra(intent.value, EXTRA_STATS) { case Some(s) => s case None => "" })
                && isServiceRunning == worker.isRunning && audioLevel == old(audioLevel)
      ensures intent.Some? && intent.value.action == ACTION_AUDIO_LEVEL && visualizationEnabled ==>
                && audioLevel == GetFloatExtra(intent.value, EXTRA_AUDIO_LEVEL, 0.0)
                && stats == old(stats) && isServiceRunning == old(isServiceRunning)
      ensures (intent.None? || intent.value.action !in {ACTION_STATS, ACTION_AUDIO_LEVEL}
               || (intent.value.action == ACTION_AUDIO_LEVEL && !visualizationEnabled)) ==>
                && stats == old(stats) && isServiceRunning == old(isServiceRunning) && audioLevel == old(audioLevel)
    {
      if intent.Some? && intent.value.action == ACTION_STATS {
        stats := match GetStringExtra(intent.value, EXTRA_STATS) { case Some(s) => s case None => "" };
        isServiceRunning := worker.isRunning;
      } else if intent.Some? && intent.value.action == ACTION_AUDIO_LEVEL {
        if visualizationEnabled {
          audioLevel := GetFloatExtra(intent.value, EXTRA_AUDIO_LEVEL, 0.0);
        }
      }
    }

    /** The volume slider: set, broadcast to the service, persist. */
    method OnVolumeChange(newVolume: real)
      modifies this`streamVolume, this`sent, this`prefs
      ensures streamVolume == newVolume
      ensures sent == old(sent) + [SendBroadcast(SetVolumeIntent(newVolume))]
      ensures prefs == old(prefs).PutFloat(KEY_STREAM_VOLUME, newVolume)
    {
      streamVolume := newVolume;
      sent := sent + [SendBroadcast(SetVolumeIntent(newVolume))];
      prefs := prefs.PutFloat(KEY_STREAM_VOLUME, newVolume);
    }

    /** The profile dropdown: any profile is taken, without a membership check. */
    method OnProfileSelected(profile: Profile)
      modifies this`selectedProfile
      ensures selectedProfile == Some(profile)
    {
      selectedProfile := Some(profile);
    }

    /** The app settings switch. */
    method OnVisualizationChanged(enabled: bool)
      modifies this`visualizationEnabled
      ensures visualizationEnabled == enabled
    {
      visualizationEnabled := enabled;
    }

    /**
     * An edit on the profile screen (opened with `selectedProfile?.id`): the
     * screen's working list moves on and its broadcast, if any, is sent.
     */
    method OnProfileEdited(editing: seq<Profile>, rowId: string, updated: Profile) returns (next: seq<Profile>)
      modifies this`sent
      ensures var change := ProfileScreen.OnProfileChange(editing, rowId, SelectedId(), updated);
              next == change.profiles && sent == old(sent) + Broadcasts(change.sent)
    {
      var change := ProfileScreen.OnProfileChange(editing, rowId, SelectedId(), updated);
      next := change.profiles;
      sent := sent + Broadcasts(change.sent);
    }

    /** `selectedProfile?.id` */
    function SelectedId(): Option<string>
      reads this`selectedProfile
    {
      if selectedProfile.Some? then Some(selectedProfile.value.id) else None
    }

    /** Leaving the profile screen hands its working list to `saveProfiles`. */
    method OnProfileScreenDisposed(editing: seq<Profile>)
      modifies this`profiles, this`prefs
      ensures profiles == editing
      ensures prefs == old(prefs).PutString(KEY_PROFILES, codec.encode(editing))
    {
      SaveProfiles(editing);
    }
  }
}
