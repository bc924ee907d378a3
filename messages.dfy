/**
 * The local-broadcast messages exchanged between the activity and the capture
 * service, and the requests the activity hands to the operating system.
 */
module Messages {
  import opened Common

  const ACTION_STATS := "com.example.space.ring0.airheadwaves.STATS"
  const ACTION_SET_VOLUME := "com.example.space.ring0.airheadwaves.SET_VOLUME"
  const ACTION_AUDIO_LEVEL := "com.example.space.ring0.airheadwaves.AUDIO_LEVEL"
  const ACTION_UPDATE_TONE_CONTROLS := "com.example.space.ring0.airheadwaves.UPDATE_TONE_CONTROLS"

  const EXTRA_STATS := "STATS"
  const EXTRA_VOLUME := "VOLUME"
  const EXTRA_AUDIO_LEVEL := "AUDIO_LEVEL"
  const EXTRA_BASS := "BASS"
  const EXTRA_TREBLE := "TREBLE"

  /** `Activity.RESULT_OK` */
  const RESULT_OK: int := -1

  /** An extra stored in an intent, with the type it was put with. */
  datatype Extra = FloatExtra(f: real) | StringExtra(s: string)

  datatype Intent = Intent(action: string, extras: map<string, Extra>)

  /** `getFloatExtra(key, default)`: the default when the key is missing or holds another type. */
  function GetFloatExtra(intent: Intent, key: string, default: real): real {
    if key in intent.extras && intent.extras[key].FloatExtra? then intent.extras[key].f else default
  }

  /** `getStringExtra(key)`: null when the key is missing or holds another type. */
  function GetStringExtra(intent: Intent, key: string): Option<string> {
    if key in intent.extras && intent.extras[key].StringExtra? then Some(intent.extras[key].s) else None
  }

  /** The SET_VOLUME command: the receiver reads back exactly `volume`, whatever its default. */
  function SetVolumeIntent(volume: real): (intent: Intent)
    ensures intent.action == ACTION_SET_VOLUME
    ensures forall d :: GetFloatExtra(intent, EXTRA_VOLUME, d) == volume
  {
    Intent(ACTION_SET_VOLUME, map[EXTRA_VOLUME := FloatExtra(volume)])
  }

  /** The UPDATE_TONE_CONTROLS command: the receiver reads back exactly `bass` and `treble`. */
  function ToneControlsIntent(bass: real, treble: real): (intent: Intent)
    ensures intent.action == ACTION_UPDATE_TONE_CONTROLS
    ensures forall d :: GetFloatExtra(intent, EXTRA_BASS, d) == bass
    ensures forall d :: GetFloatExtra(intent, EXTRA_TREBLE, d) == treble
  {
    Intent(ACTION_UPDATE_TONE_CONTROLS, map[EXTRA_BASS := FloatExtra(bass), EXTRA_TREBLE := FloatExtra(treble)])
  }

  /** The STATS telemetry the service broadcasts. */
  function StatsIntent(text: string): (intent: Intent)
    ensures intent.action == ACTION_STATS && GetStringExtra(intent, EXTRA_STATS) == Some(text)
  {
    Intent(ACTION_STATS, map[EXTRA_STATS := StringExtra(text)])
  }

  /** The screen-capture consent the system hands back (`it.data`), kept opaque. */
  datatype ProjectionGrant = ProjectionGrant(token: nat)

  /** The extras of the intent that starts the capture service. */
  datatype StartCommand = StartCommand(
    resultCode: int,
    data: Option<ProjectionGrant>,
    serverIp: string,
    serverPort: Int32,
    bitrate: Int32,
    sampleRate: Int32,
    channelConfig: string,
    bass: real,
    treble: real,
    volume: real)

  /** What the activity hands to the operating system, in order. */
  datatype Outgoing =
    | SendBroadcast(intent: Intent)
    | StartForegroundService(command: StartCommand)
    | StopService
    | LaunchScreenCapture
}
