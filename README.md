# AirheadWaves core, modelled in Dafny

AirheadWaves is an Android app. It captures the audio other apps are playing, encodes it as AAC, and streams it to a server chosen from a list of connection profiles. This project models the app's sequential logic and proves properties of it:

- **Profile store and selection.** `MainViewModel` and the older state kept directly in `MainActivity` both:
  - load the profile list from the "Settings" preferences;
  - fall back to a default profile when nothing usable is stored;
  - persist the list;
  - keep the selected profile valid when the list is replaced (view model only).

  The profile settings screen edits a working copy of the list:
  - replace by id;
  - delete by id;
  - append a numbered new profile;
  - commit an editor, where a port text that is not an `Int` becomes 8888.
- **Streaming session and commands.** The session is the single flag `isServiceRunning`. Four things act on it:
  - the start/stop toggle;
  - the capture-consent callback, which builds the start command from the selected profile and the current volume;
  - the `onResume` resync;
  - the telemetry receiver.

  Volume and tone-control commands go to the capture service. Everything an activity hands to the operating system is appended to its log (`sent` in `Activity.MainActivity`, `requests` in `CosmicCast.MainActivity`). The capture service appends the broadcasts it sends to its own log, `outbox`.
- **ADTS header.** Both capture services pack a 7-byte ADTS header in front of each AAC frame (`adts_fixed_header` and `adts_variable_header`, ISO/IEC 13818-7 section 6.2). The newer service also has a settings receiver and the static `isRunning` flag.

Layout, one module per file:

| file | module | models |
|---|---|---|
| common.dfy | `Common` | `Option` (Kotlin `T?`) and the JVM `Int` range |
| preferences.dfy | `Preferences` | the shared-preferences file, as typed maps |
| text.dfy | `Text` | `Int.toString()` and `String.toIntOrNull()` |
| profiles.dfy | `Profiles` | `ServerProfile`, find/first-or-null, reselection, list edits |
| messages.dfy | `Messages` | broadcast intents, their extras and the start command |
| profile_screen.dfy | `ProfileScreen` | `ProfileSettingsScreen` edit callback and `ProfileEditor` commit |
| view_model.dfy | `ViewModel` | class `MainViewModel` |
| main_activity.dfy | `Activity` | class `MainActivity` of `space.ring0.airheadwaves` |
| adts.dfy | `Adts` | header bytes, on Java `int`s as `bv32` and bytes as `bv8`; a field-level parser and encoder of the standard header |
| capture_service.dfy | `CaptureService` | class `AudioCaptureService` and the `isRunning` flag |
| cosmic_cast.dfy | `CosmicCast` | the older package's fixed header writer and two-state activity |

Modelling choices:

- **Integer widths.** Java `int` arithmetic in the header code is exact 32-bit two's complement:
  - `>>` is the arithmetic shift `Adts.Asr`;
  - `(byte) x` keeps the low eight bits (`Adts.ToByte`).
- **Floats.** Kotlin `Float` values (volume, bass, treble, audio level) are `real`. The modelled code only stores and forwards them.
- **JSON codec.** The kotlinx JSON codec is a pair of function values, `Profiles.Codec`:
  - `encode` always succeeds;
  - `decode` returns `None` where the source catches an exception.
- **Random ids.** UUIDs arrive as a `freshId` parameter.

Behaviours of the code that the model keeps as they are:

- The activity's `saveProfiles` (MainActivity.kt:207-215) stores the new list and does not reselect. After a delete, `selectedProfile` can name a profile that is no longer in the list. Only `MainViewModel.updateProfiles` keeps the selection valid.
- The activity's `loadProfiles` (MainActivity.kt:185-200) accepts a stored list that decodes to `[]`. The list is then empty and `selectedProfile` is null.
- `startStopService` (MainActivity.kt:231-239) launches the consent request whenever the session is off, even with no profile selected. The consent callback (MainActivity.kt:116-118) then starts nothing.
- The activity's `loadProfiles` persists the default profile only when the stored text fails to decode, not when nothing is stored. The view model persists it in both cases (`Activity.ActivityLoadMatchesViewModel`).

## Model

| member | source | states |
|---|---|---|
| Preferences.Prefs.PutFloat | app/src/main/java/space/ring0/airheadwaves/MainViewModel.kt:88-91 | after `putFloat(key, v)` every read of `key` yields `v` whatever the default; other keys and the other tables are unchanged |
| Preferences.Prefs.PutString | app/src/main/java/space/ring0/airheadwaves/MainViewModel.kt:126-129 | after `putString(key, v)` a read of `key` yields `v`; every other key reads as before |
| Text.Digits | app/src/main/java/space/ring0/airheadwaves/MainActivity.kt:447 | `Int.toString()` of a magnitude is a non-empty string of decimal digits with no leading zero |
| Text.ToIntOrNull | app/src/main/java/space/ring0/airheadwaves/MainActivity.kt:456 | `toIntOrNull` gives a value exactly when the text is an optional sign followed by one or more decimal digits whose signed value is in the `Int` range, and that value is the one it gives |
| Text.ToIntOrNullExamples | app/src/main/java/space/ring0/airheadwaves/MainActivity.kt:456 | "+9000" and "09000" both give 9000; a lone "-" and "2147483648" give null |
| Text.DigitsValueOfDigits | app/src/main/java/space/ring0/airheadwaves/MainActivity.kt:447 | the digits printed for `n` denote `n` |
| Text.ToIntOrNullOfIntToString | app/src/main/java/space/ring0/airheadwaves/MainActivity.kt:447-456 | parsing `port.toString()` back gives the same `Int`, for every `Int` including negatives |
| Profiles.Find | app/src/main/java/space/ring0/airheadwaves/MainViewModel.kt:103 | `find { it.id == id }` returns a member of the list carrying `id`, and null exactly when no element carries it |
| Profiles.FindIsFirst | app/src/main/java/space/ring0/airheadwaves/MainViewModel.kt:103 | `find` returns the first element carrying the id |
| Profiles.Reselect | app/src/main/java/space/ring0/airheadwaves/MainViewModel.kt:100-113 | the selection after a replace is null exactly when the new list is empty, and otherwise an element of the new list |
| Profiles.ReselectKeepsEdited | app/src/main/java/space/ring0/airheadwaves/MainViewModel.kt:101-106 | when the selected id is still present, the selection becomes the first element with that id, i.e. the edited version |
| Profiles.ReselectFallsBack | app/src/main/java/space/ring0/airheadwaves/MainViewModel.kt:107-113 | when nothing was selected or its id is gone, the selection is the first element, or null for an empty list |
| Profiles.ReselectAfterDeletion | app/src/main/java/space/ring0/airheadwaves/MainViewModel.kt:107-110 | deleting the selected A from [A, B] selects B; deleting everything selects nothing |
| Profiles.ReplaceById | app/src/main/java/space/ring0/airheadwaves/MainActivity.kt:414-416 | the edit map keeps length and order, puts `updated` at every position with the id, and leaves every other position alone |
| Profiles.ReplaceKeepsIds | app/src/main/java/space/ring0/airheadwaves/MainActivity.kt:414-416 | replacing with a record of the same id keeps every position's id and keeps ids unique; the record is then in the list |
| Profiles.DeleteById | app/src/main/java/space/ring0/airheadwaves/MainActivity.kt:423-425 | delete keeps exactly the elements whose id differs, never grows the list, and is the identity when the id is absent |
| Profiles.DeleteOne | app/src/main/java/space/ring0/airheadwaves/MainActivity.kt:424 | on one element, `filter` drops it exactly when it carries the id |
| Profiles.DeleteAppend | app/src/main/java/space/ring0/airheadwaves/MainActivity.kt:424 | delete distributes over concatenation; with `DeleteOne` this fixes the result element by element, so order and repeats are those of `filter` |
| Profiles.DeleteKeepsNoDuplicates | app/src/main/java/space/ring0/airheadwaves/MainActivity.kt:423-425 | deleting keeps ids unique and leaves no element with the deleted id |
| Profiles.AppendNewProfile | app/src/main/java/space/ring0/airheadwaves/MainActivity.kt:403-406 | add appends exactly one profile after the unchanged list, named "New Profile {size+1}" with ip "", 8888, 128000, 44100, "Stereo", bass and treble 0; with a fresh id, ids stay unique |
| Messages.SetVolumeIntent | app/src/main/java/space/ring0/airheadwaves/MainActivity.kt:166-170 | the SET_VOLUME broadcast carries the volume, read back unchanged for any default |
| Messages.ToneControlsIntent | app/src/main/java/space/ring0/airheadwaves/MainActivity.kt:417-421 | the UPDATE_TONE_CONTROLS broadcast carries bass and treble, read back unchanged |
| Messages.StatsIntent | app/src/main/java/space/ring0/airheadwaves/AudioCaptureService.java:319 | the STATS broadcast carries its text under "STATS" |
| ProfileScreen.OnProfileChange | app/src/main/java/space/ring0/airheadwaves/MainActivity.kt:413-422 | an edit replaces only the positions whose id is the row's, keeping length and order, and sends one UPDATE_TONE_CONTROLS with the new bass and treble exactly when the row is the current profile, none otherwise |
| ProfileScreen.CommitEditor | app/src/main/java/space/ring0/airheadwaves/MainActivity.kt:455-457 | the committed profile keeps its id; its port is the parsed text or 8888 when the text is not an `Int`; all other fields are the editor's |
| ProfileScreen.CommitUneditedIsIdentity | app/src/main/java/space/ring0/airheadwaves/MainActivity.kt:445-457 | committing the editor's initial values gives back the profile unchanged |
| ProfileScreen.EditKeepsIdsAndPosition | app/src/main/java/space/ring0/airheadwaves/MainActivity.kt:413-416 | editing row k keeps every id, the length and the order, puts the edit at position k and keeps ids unique |
| ProfileScreen.OpeningEditorResendsTone | app/src/main/java/space/ring0/airheadwaves/MainActivity.kt:413-422 | the editor's first commit leaves the list unchanged and, for the current profile only, re-sends its tone controls |
| ViewModel.LoadSelectsFirst | app/src/main/java/space/ring0/airheadwaves/MainViewModel.kt:50-62 | after a load the selection is the first profile, and null exactly when the list is empty |
| ViewModel.LoadRepairsToDefault | app/src/main/java/space/ring0/airheadwaves/MainViewModel.kt:50-77 | with nothing stored or undecodable text, the list is exactly the default profile ("Default", "192.168.1.100", 8888, 128000, 44100, "Stereo", 0, 0), selected and persisted |
| ViewModel.LoadKeepsDecoded | app/src/main/java/space/ring0/airheadwaves/MainViewModel.kt:51-55 | decodable text gives the decoded list with its first element selected and nothing written |
| ViewModel.RepairIsStable | app/src/main/java/space/ring0/airheadwaves/MainViewModel.kt:50-77 | with a codec that reads back what it wrote, loading the repaired preferences again changes nothing |
| ViewModel.MainViewModel.constructor | app/src/main/java/space/ring0/airheadwaves/MainViewModel.kt:16-43 | initial flags, "Not Connected", level 0, then the settings and the profiles as loaded from the stored preferences |
| ViewModel.MainViewModel.LoadSettings | app/src/main/java/space/ring0/airheadwaves/MainViewModel.kt:45-48 | volume defaults to 1.0 and visualisation to true; nothing else changes |
| ViewModel.MainViewModel.LoadProfiles | app/src/main/java/space/ring0/airheadwaves/MainViewModel.kt:50-62 | the list, selection and preferences become `LoadProfilesResult` of the old preferences; the other fields are unchanged |
| ViewModel.MainViewModel.CreateDefaultProfile | app/src/main/java/space/ring0/airheadwaves/MainViewModel.kt:64-77 | the list is the single default profile, selected, and persisted under "PROFILES" |
| ViewModel.MainViewModel.UpdateServiceRunning | app/src/main/java/space/ring0/airheadwaves/MainViewModel.kt:80-82 | sets only the running flag |
| ViewModel.MainViewModel.UpdateStats | app/src/main/java/space/ring0/airheadwaves/MainViewModel.kt:84-86 | sets only the stats text |
| ViewModel.MainViewModel.UpdateStreamVolume | app/src/main/java/space/ring0/airheadwaves/MainViewModel.kt:88-91 | sets the volume and persists it under "STREAM_VOLUME" |
| ViewModel.MainViewModel.UpdateAudioLevel | app/src/main/java/space/ring0/airheadwaves/MainViewModel.kt:93-95 | sets only the audio level |
| ViewModel.MainViewModel.UpdateProfiles | app/src/main/java/space/ring0/airheadwaves/MainViewModel.kt:97-116 | the list becomes exactly the new list, and its encoding is written under "PROFILES"; the selection follows `Reselect`, so it is null exactly when the list is empty and otherwise a member |
| ViewModel.MainViewModel.SelectProfile | app/src/main/java/space/ring0/airheadwaves/MainViewModel.kt:118-120 | sets only the selection, to any profile, without a membership check |
| ViewModel.MainViewModel.UpdateVisualizationEnabled | app/src/main/java/space/ring0/airheadwaves/MainViewModel.kt:122-124 | sets only the visualisation switch |
| ViewModel.MainViewModel.SaveProfiles | app/src/main/java/space/ring0/airheadwaves/MainViewModel.kt:126-129 | writes the list's encoding under "PROFILES" and changes no other field |
| Activity.ActivityLoadMatchesViewModel | app/src/main/java/space/ring0/airheadwaves/MainActivity.kt:185-205 | the activity's load gives the same list and selection as the view model's; the preferences also agree unless nothing is stored, in which case the activity writes nothing and the view model writes |
| Activity.AbsentProfilesStayAbsent | app/src/main/java/space/ring0/airheadwaves/MainActivity.kt:196-199 | with nothing stored the default profile is not persisted, so the next start makes a default profile with a new id |
| Activity.StartCommandFor | app/src/main/java/space/ring0/airheadwaves/MainActivity.kt:120-130 | the start command carries the result code, the grant, the profile's ip, port, bitrate, rate, channels, bass and treble, and the current volume |
| Activity.Broadcasts | app/src/main/java/space/ring0/airheadwaves/MainActivity.kt:417-421 | each broadcast sent from the profile screen becomes one log entry, in order |
| Activity.MainActivity.constructor | app/src/main/java/space/ring0/airheadwaves/MainActivity.kt:93-99 | the field initialisers: not running, "Not Connected", volume 1.0, level 0, no profiles or selection, visualisation on |
| Activity.MainActivity.OnCreate | app/src/main/java/space/ring0/airheadwaves/MainActivity.kt:138-142 | the visualisation switch from the preferences (default true), then `loadProfiles`; session fields and the log are unchanged |
| Activity.MainActivity.LoadProfiles | app/src/main/java/space/ring0/airheadwaves/MainActivity.kt:185-200 | volume from "STREAM_VOLUME" (default 1.0); an absent string gives the default profile without writing; an undecodable one gives it and writes it; a decodable one gives the list with its first element selected |
| Activity.MainActivity.CreateDefaultProfile | app/src/main/java/space/ring0/airheadwaves/MainActivity.kt:202-205 | the single default profile, selected; nothing written |
| Activity.MainActivity.SaveProfiles | app/src/main/java/space/ring0/airheadwaves/MainActivity.kt:207-215 | the list is replaced and persisted; the selection is untouched (it is outside the frame) |
| Activity.MainActivity.OnResume | app/src/main/java/space/ring0/airheadwaves/MainActivity.kt:217-219 | the running flag becomes the service's `isRunning`, whatever it was before |
| Activity.MainActivity.StartStopService | app/src/main/java/space/ring0/airheadwaves/MainActivity.kt:231-239 | while running: stop the service, flag false, stats "Not Connected"; otherwise only the consent request is logged and no state changes |
| Activity.MainActivity.OnProjectionResult | app/src/main/java/space/ring0/airheadwaves/MainActivity.kt:116-136 | RESULT_OK with a selected profile logs exactly one start command from that profile and the volume and sets the flag; anything else changes nothing |
| Activity.MainActivity.OnStatsReceive | app/src/main/java/space/ring0/airheadwaves/MainActivity.kt:101-112 | STATS sets the text ("" when missing) and resyncs the flag from the service; AUDIO_LEVEL sets the level (default 0) only while visualisation is on; nothing else changes |
| Activity.MainActivity.OnVolumeChange | app/src/main/java/space/ring0/airheadwaves/MainActivity.kt:165-174 | sets the volume, logs one SET_VOLUME broadcast with the same value, persists "STREAM_VOLUME" |
| Activity.MainActivity.OnProfileSelected | app/src/main/java/space/ring0/airheadwaves/MainActivity.kt:175 | sets the selection to any profile |
| Activity.MainActivity.OnVisualizationChanged | app/src/main/java/space/ring0/airheadwaves/MainActivity.kt:178 | sets the visualisation switch |
| Activity.MainActivity.OnProfileEdited | app/src/main/java/space/ring0/airheadwaves/MainActivity.kt:177 | an edit on the profile screen, opened with the selected id, moves the working list on by `OnProfileChange` and logs its broadcast, if any |
| Activity.MainActivity.OnProfileScreenDisposed | app/src/main/java/space/ring0/airheadwaves/MainActivity.kt:430-434 | leaving the screen saves its working list and writes it under "PROFILES" |
| Adts.Asr | app/src/main/java/space/ring0/airheadwaves/AudioCaptureService.java:185-187 | Java's `>>` on a non-negative `int` is the logical shift |
| Adts.ToByte | app/src/main/java/space/ring0/airheadwaves/AudioCaptureService.java:183-189 | `(byte) x` keeps a value already in 0..255 |
| Adts.FreqIndex | app/src/main/java/space/ring0/airheadwaves/AudioCaptureService.java:192-203 | 22050, 44100 and 48000 map to their index in the sampling-frequency table; every other rate maps to 44100's index |
| Adts.Parse | app/src/main/java/space/ring0/airheadwaves/AudioCaptureService.java:183-189 | every field read from seven bytes fits its width |
| Adts.HeaderBytesAreStandard | app/src/main/java/space/ring0/airheadwaves/AudioCaptureService.java:183-189 | for a length below 8192 every `int` cast to `byte` is already in 0..255, and the seven bytes are the standard encoding of the intended header, which they parse back to |
| Adts.HeaderBytesForAnyLength | app/src/main/java/space/ring0/airheadwaves/AudioCaptureService.java:185-189 | for any `int` length the frame length reads back as its low 13 bits, and its bits 13..16 land in the four copyright/home flags; the other fields are as intended, the channel field while the length is below 2^17 |
| CaptureService.RunningFlag.constructor | app/src/main/java/space/ring0/airheadwaves/AudioCaptureService.java:48 | `isRunning` starts false |
| CaptureService.ChannelCount | app/src/main/java/space/ring0/airheadwaves/AudioCaptureService.java:181 | 2 exactly for "Stereo", 1 for anything else, null included |
| CaptureService.ServiceHeaderSyncAndProfile | app/src/main/java/space/ring0/airheadwaves/AudioCaptureService.java:179-189 | packet[0] = 0xFF, packet[1] = 0xF1, packet[6] = 0xFC, and the profile field is 1 (AAC LC minus one) |
| CaptureService.ServiceHeaderRate | app/src/main/java/space/ring0/airheadwaves/AudioCaptureService.java:180-185 | the frequency field decodes to `getFreqIndex(sampleRate)` |
| CaptureService.ServiceHeaderChannels | app/src/main/java/space/ring0/airheadwaves/AudioCaptureService.java:181-186 | the channel field decodes to 2 for "Stereo" and 1 otherwise, for lengths below 2^17 |
| CaptureService.ServiceHeaderLength | app/src/main/java/space/ring0/airheadwaves/AudioCaptureService.java:186-188 | the 13-bit frame length decodes to the length's low 13 bits, so to the length itself below 8192 |
| CaptureService.ServiceHeaderStandard | app/src/main/java/space/ring0/airheadwaves/AudioCaptureService.java:178-190 | below 8192 the header is the standard encoding of AAC LC, the configured rate index and channel count, and the length |
| CaptureService.AudioCaptureService.constructor | app/src/main/java/space/ring0/airheadwaves/AudioCaptureService.java:55-65 | the field initialisers: volume 1.0, bass and treble 0, no filters, nothing configured |
| CaptureService.AudioCaptureService.OnCreate | app/src/main/java/space/ring0/airheadwaves/AudioCaptureService.java:82-84 | `isRunning` is true after `onCreate` |
| CaptureService.AudioCaptureService.OnStartCommand | app/src/main/java/space/ring0/airheadwaves/AudioCaptureService.java:107-117 | the settings are taken from the start command, and the filters are set up with its bass and treble at 200 Hz and 3000 Hz |
| CaptureService.AudioCaptureService.UpdateFilters | app/src/main/java/space/ring0/airheadwaves/AudioCaptureService.java:173-176 | existing filters are retuned to the current bass and treble |
| CaptureService.AudioCaptureService.OnSettingsReceive | app/src/main/java/space/ring0/airheadwaves/AudioCaptureService.java:68-79 | SET_VOLUME sets only the volume (default 1.0); UPDATE_TONE_CONTROLS sets only bass and treble (default 0) and retunes the filters; other actions change nothing |
| CaptureService.AudioCaptureService.OnDestroy | app/src/main/java/space/ring0/airheadwaves/AudioCaptureService.java:301-320 | `isRunning` is false and a final "Not Connected" STATS broadcast is sent |
| CaptureService.AudioCaptureService.AddAdtsHeader | app/src/main/java/space/ring0/airheadwaves/AudioCaptureService.java:178-190 | packet[0..6] receive the header for the configured rate and channels, and every later element is unchanged |
| CosmicCast.CosmicHeaderConstants | app/src/main/java/com/example/cosmiccast/AudioCaptureService.java:114-126 | packet[0] = 0xFF, packet[1] = 0xF1, packet[2] = 0x50, packet[6] = 0xFC, and the top two bits of packet[3] are 01 (mono) below 2^17 |
| CosmicCast.CosmicHeaderLength | app/src/main/java/com/example/cosmiccast/AudioCaptureService.java:123-125 | the 13-bit frame length decodes to the length's low 13 bits, the length itself below 8192 |
| CosmicCast.CosmicHeaderMatchesService | app/src/main/java/com/example/cosmiccast/AudioCaptureService.java:114-127 | equal to the newer service's header for 44100 Hz (or any rate other than 22050 and 48000) and non-"Stereo" channels |
| CosmicCast.AddAdtsHeader | app/src/main/java/com/example/cosmiccast/AudioCaptureService.java:114-127 | packet[0..6] receive the fixed header, and every later element is unchanged |
| CosmicCast.MainActivity.constructor | app/src/main/java/com/example/cosmiccast/MainActivity.kt:29 | the session flag starts false |
| CosmicCast.MainActivity.StartStopService | app/src/main/java/com/example/cosmiccast/MainActivity.kt:55-62 | while running: stop and clear the flag; otherwise only the consent request, flag unchanged |
| CosmicCast.MainActivity.OnProjectionResult | app/src/main/java/com/example/cosmiccast/MainActivity.kt:32-42 | RESULT_OK starts the service with the result code and grant and sets the flag; any other result changes nothing |

## Left out

- Compose rendering, navigation, themes and the colour animation: UI only.
- `ProfileEditor`'s `LaunchedEffect` scheduling. The commit is modelled, not when Compose re-runs it (`ProfileScreen.OpeningEditorResendsTone` covers the first run).
- Audio capture, the MediaCodec encoder, socket streaming, notifications and foreground-service calls: device and network I/O on another thread. `onStartCommand` is modelled only for the settings it reads.
- `BiquadFilter` processing, `applyAudioEffects` and the RMS level computation: floating-point DSP. The filters are modelled only by their last configuration.
- The per-second kbps statistic: it depends on wall-clock time.
- The kotlinx JSON codec: a library, taken as an opaque encode and a failable decode, with no round trip assumed except where a lemma states it as a hypothesis (`ViewModel.RepairIsStable`).
- Receiver registration and unregistration in `onResume`/`onPause`, and `LocalBroadcastManager` delivery: OS messaging. Sends are log appends; receipt is a method call.
- `MainViewModel.getInstance`: a concurrency-safe singleton accessor.
- `UUID.randomUUID()`: the id is a parameter, and its freshness is a hypothesis where it matters (`Profiles.AppendNewProfile`).
- A `ClassCastException` from a preference stored under a key with another type: the preferences are typed maps, so it cannot arise.
- `CaptureService.AudioCaptureService.OnSettingsReceive`: a tone command that arrives before `onStartCommand` has created the filters dereferences a null filter in Java and crashes. The model leaves the absent filters absent instead.
- `Text.ToIntOrNull`: Unicode decimal digits outside ASCII, which Kotlin also accepts, are not modelled.
- `Activity.MainActivity.OnStatsReceive`: the telemetry's `Intent?` is modelled as `Option<Intent>`. The Android `Context` argument is dropped.
- Timing of writes: `apply()` is treated as an immediate write of the preferences value.
