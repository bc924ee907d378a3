/**
 * `AudioCaptureService` of the newer package: the parts that are sequential
 * logic — the `isRunning` lifecycle flag, the settings receiver that takes
 * volume and tone commands, reading the start command, and the ADTS header it
 * writes in front of every encoded AAC frame.
 */
module CaptureService {
  import opened Common
  import opened Messages
  import opened Adts

  /** The static `AudioCaptureService.isRunning`, shared with the activity that reads it. */
  class RunningFlag {
    var isRunning: bool

    /** `public static boolean isRunning = false` */
    constructor ()
      ensures !isRunning
    {
      isRunning := false;
    }
  }

  /** A `BiquadFilter` as last configured: only its kind, gain and corner frequency. */
  datatype Shelf = LowShelf(gainDb: real, cutoffHz: real) | HighShelf(gainDb: real, cutoffHz: real)

  const BASS_CUTOFF_HZ: real := 200.0
  const TREBLE_CUTOFF_HZ: real := 3000.0

  /** The channel configuration field: 2 for "Stereo", 1 (mono) for anything else, null included. */
  function ChannelCount(channelConfig: Option<string>): (c: JInt)
    ensures c == 2 <==> channelConfig == Some("Stereo")
    ensures c == 1 <==> channelConfig != Some("Stereo")
  {
    if channelConfig == Some("Stereo") then 2 else 1
  }

  /** The seven header bytes `addAdtsHeader` writes for the configured rate and channels, AAC LC. */
  function ServiceHeader(sampleRate: int, channelConfig: Option<string>, packetLen: JInt): (h: seq<bv8>)
    ensures |h| == 7
  {
    HeaderBytes(2, FreqIndex(sampleRate), ChannelCount(channelConfig), packetLen)
  }

  /** Bytes 0, 1 and 6 are constant, and the Object Type field says AAC LC. */
  lemma ServiceHeaderSyncAndProfile(sampleRate: int, channelConfig: Option<string>, packetLen: JInt)
    ensures var h := ServiceHeader(sampleRate, channelConfig, packetLen);
            h[0] == 0xFF && h[1] == 0xF1 && h[6] == 0xFC && Parse(h).profile == 1
  {
    var freqIdx, chanCfg := FreqIndex(sampleRate), ChannelCount(channelConfig);
    SyncBytes(2, freqIdx, chanCfg, packetLen);
    FixedFieldsForAnyLength(2, freqIdx, chanCfg, packetLen);
  }

  /** The sampling-frequency field decodes to the index of the configured rate. */
  lemma ServiceHeaderRate(sampleRate: int, channelConfig: Option<string>, packetLen: JInt)
    ensures Parse(ServiceHeader(sampleRate, channelConfig, packetLen)).samplingFrequencyIndex as JInt
            == FreqIndex(sampleRate)
  {
    FixedFieldsForAnyLength(2, FreqIndex(sampleRate), ChannelCount(channelConfig), packetLen);
  }

  /** The channel field decodes to 2 for "Stereo" and 1 otherwise, unless the length reaches 2^17. */
  lemma ServiceHeaderChannels(sampleRate: int, channelConfig: Option<string>, packetLen: JInt)
    requires packetLen < 0x2_0000
    ensures Parse(ServiceHeader(sampleRate, channelConfig, packetLen)).channelConfiguration as JInt
            == ChannelCount(channelConfig)
  {
    ChannelForAnyLength(2, FreqIndex(sampleRate), ChannelCount(channelConfig), packetLen);
  }

  /** The 13-bit frame length decodes to the low 13 bits of `packetLen`, for any `int`. */
  lemma ServiceHeaderLength(sampleRate: int, channelConfig: Option<string>, packetLen: JInt)
    ensures Parse(ServiceHeader(sampleRate, channelConfig, packetLen)).frameLength as JInt == packetLen & 0x1FFF
  {
    LengthFieldsForAnyLength(2, FreqIndex(sampleRate), ChannelCount(channelConfig), packetLen);
  }

  /** Below 8192 bytes the header is the standard encoding of the intended header. */
  lemma ServiceHeaderStandard(sampleRate: int, channelConfig: Option<string>, packetLen: JInt)
    requires packetLen < 0x2000
    ensures var intended := IntendedHeader(2, FreqIndex(sampleRate), ChannelCount(channelConfig), packetLen);
            && ServiceHeader(sampleRate, channelConfig, packetLen) == Encode(intended)
            && Parse(ServiceHeader(sampleRate, channelConfig, packetLen)) == intended
  {
    HeaderBytesAreStandard(2, FreqIndex(sampleRate), ChannelCount(channelConfig), packetLen);
  }

  class AudioCaptureService {
    const running: RunningFlag
    var serverIp: Option<string>
    var serverPort: Int32
    var bitrate: Int32
    var sampleRate: Int32
    var channelConfig: Option<string>
    var streamVolume: real
    var bass: real
    var treble: real
    var bassFilter: Option<Shelf>
    var trebleFilter: Option<Shelf>
    /** Local broadcasts sent, oldest first. */
    var outbox: seq<Intent>

    /** The field initialisers; `running` is the class-wide flag. */
    constructor (running: RunningFlag)
      ensures this.running == running
      ensures serverIp == None && channelConfig == None && serverPort == 0 && bitrate == 0 && sampleRate == 0
      ensures streamVolume == 1.0 && bass == 0.0 && treble == 0.0
      ensures bassFilter == None && trebleFilter == None && outbox == []
    {
      this.running := running;
      serverIp := None;
      serverPort := 0;
      bitrate := 0;
      sampleRate := 0;
      channelConfig := None;
      streamVolume := 1.0;
      bass := 0.0;
      treble := 0.0;
      bassFilter := None;
      trebleFilter := None;
      outbox := [];
    }

    /** `onCreate`: the service announces that it runs. */
    method OnCreate()
      modifies running
      ensures running.isRunning
    {
      running.isRunning := true;
    }

    /**
     * `onStartCommand` without the capture pipeline: the settings carried by
     * the command, then `setupFilters` with the current tone values.
     */
    method OnStartCommand(command: StartCommand)
      modifies this`serverIp, this`serverPort, this`bitrate, this`sampleRate, this`channelConfig
      modifies this`streamVolume, this`bass, this`treble, this`bassFilter, this`trebleFilter
      ensures serverIp == Some(command.serverIp) && serverPort == command.serverPort
      ensures bitrate == command.bitrate && sampleRate == command.sampleRate
      ensures channelConfig == Some(command.channelConfig)
      ensures streamVolume == command.volume && bass == command.bass && treble == command.treble
      ensures bassFilter == Some(LowShelf(bass, BASS_CUTOFF_HZ))
      ensures trebleFilter == Some(HighShelf(treble, TREBLE_CUTOFF_HZ))
    {
      serverIp := Some(command.serverIp);
      serverPort := command.serverPort;
      bitrate := command.bitrate;
      sampleRate := command.sampleRate;
      channelConfig := Some(command.channelConfig);
      streamVolume := command.volume;
      bass := command.bass;
      treble := command.treble;
      bassFilter := Some(LowShelf(bass, BASS_CUTOFF_HZ));
      trebleFilter := Some(HighShelf(treble, TREBLE_CUTOFF_HZ));
    }

    /** `updateFilters`, on filters that `onStartCommand` has created. */
    method UpdateFilters()
      modifies this`bassFilter, this`trebleFilter
      ensures old(bassFilter).Some? ==> bassFilter == Some(LowShelf(bass, BASS_CUTOFF_HZ))
      ensures old(trebleFilter).Some? ==> trebleFilter == Some(HighShelf(treble, TREBLE_CUTOFF_HZ))
      ensures old(bassFilter).None? ==> bassFilter == None
      ensures old(trebleFilter).None? ==> trebleFilter == None
    {
      if bassFilter.Some? {
        bassFilter := Some(LowShelf(bass, BASS_CUTOFF_HZ));
      }
      if trebleFilter.Some? {
        trebleFilter := Some(HighShelf(treble, TREBLE_CUTOFF_HZ));
      }
    }

    /**
     * `settingsReceiver.onReceive`: SET_VOLUME sets the volume alone (1.0 when
     * the extra is missing); UPDATE_TONE_CONTROLS sets bass and treble (0 when
     * missing) and retunes the filters; any other action changes nothing.
     */
    method OnSettingsReceive(intent: Intent)
      modifies this`streamVolume, this`bass, this`treble, this`bassFilter, this`trebleFilter
      ensures intent.action == ACTION_SET_VOLUME ==>
                && streamVolume == GetFloatExtra(intent, EXTRA_VOLUME, 1.0)
                && bass == old(bass) && treble == old(treble)
                && bassFilter == old(bassFilter) && trebleFilter == old(trebleFilter)
      ensures intent.action == ACTION_UPDATE_TONE_CONTROLS ==>
                && streamVolume == old(streamVolume)
                && bass == GetFloatExtra(intent, EXTRA_BASS, 0.0)
                && treble == GetFloatExtra(intent, EXTRA_TREBLE, 0.0)
                && (old(bassFilter).Some? ==> bassFilter == Some(LowShelf(bass, BASS_CUTOFF_HZ)))
                && (old(trebleFilter).Some? ==> trebleFilter == Some(HighShelf(treble, TREBLE_CUTOFF_HZ)))
      ensures intent.action !in {ACTION_SET_VOLUME, ACTION_UPDATE_TONE_CONTROLS} ==>
                && streamVolume == old(streamVolume) && bass == old(bass) && treble == old(treble)
                && bassFilter == old(bassFilter) && trebleFilter == old(trebleFilter)
    {
      if intent.action == ACTION_SET_VOLUME {
        streamVolume := GetFloatExtra(intent, EXTRA_VOLUME, 1.0);
      } else if intent.action == ACTION_UPDATE_TONE_CONTROLS {
        bass := GetFloatExtra(intent, EXTRA_BASS, 0.0);
        treble := GetFloatExtra(intent, EXTRA_TREBLE, 0.0);
        UpdateFilters();
      }
    }

    /** `onDestroy`: the flag drops and a final "Not Connected" is broadcast. */
    method OnDestroy()
      modifies running, this`outbox
      ensures !running.isRunning
      ensures outbox == old(outbox) + [StatsIntent("Not Connected")]
    {
      running.isRunning := false;
      outbox := outbox + [StatsIntent("Not Connected")];
    }

    /** `addAdtsHeader`: the header goes into `packet[0..6]`; the payload after it is untouched. */
    method AddAdtsHeader(packet: array<bv8>, packetLen: JInt)
      requires packet.Length >= 7
      modifies packet
      ensures packet[..7] == ServiceHeader(sampleRate, channelConfig, packetLen)
      ensures packet[7..] == old(packet[7..])
    {
      var profile: JInt := 2;
      var freqIdx: JInt := FreqIndex(sampleRate);
      var chanCfg: JInt := ChannelCount(channelConfig);
      packet[0] := ToByte(0xFF);
      packet[1] := ToByte(0xF1);
      packet[2] := ToByte(((profile - 1) << 6) + (freqIdx << 2) + Asr(chanCfg, 2));
      packet[3] := ToByte(((chanCfg & 3) << 6) + Asr(packetLen, 11));
      packet[4] := ToByte(Asr(packetLen & 0x7FF, 3));
      packet[5] := ToByte(((packetLen & 7) << 5) + 0x1F);
      packet[6] := ToByte(0xFC);
      HeaderBytesDisplay(profile, freqIdx, chanCfg, packetLen);
    }
  }
}
