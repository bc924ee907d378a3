/**
 * The earlier CosmicCast package: a header writer fixed to AAC LC, 44.1 kHz,
 * mono, and an activity whose whole session state is one boolean.
 */
module CosmicCast {
  import opened Common
  import opened Adts
  import Messages
  import CaptureService

  /** The header bytes of the fixed configuration: profile 2, frequency index 4, one channel. */
  function CosmicHeader(packetLen: JInt): (h: seq<bv8>)
    ensures |h| == 7
  {
    HeaderBytes(2, 4, 1, packetLen)
  }

  /**
   * Bytes 0, 1 and 6 are the sync and fullness constants; byte 2 is always
   * 0x50 (AAC LC, index 4, channel bit 2 clear); while the length is below
   * 2^17 the top two bits of byte 3 are 01, the mono channel configuration.
   */
  lemma CosmicHeaderConstants(packetLen: JInt)
    ensures var h := CosmicHeader(packetLen);
            && h[0] == 0xFF && h[1] == 0xF1 && h[2] == 0x50 && h[6] == 0xFC
            && (packetLen < 0x2_0000 ==> h[3] >> 6 == 1)
  {
    SyncBytes(2, 4, 1, packetLen);
    HeaderBytesDisplay(2, 4, 1, packetLen);
    if packetLen < 0x2_0000 {
      MonoTopBits(packetLen);
    }
  }

  lemma MonoTopBits(packetLen: JInt)
    requires packetLen < 0x2_0000
    ensures ToByte(((1 & 3) << 6) + Asr(packetLen, 11)) >> 6 == 1
  {
  }

  /** The 13-bit frame length reads back as the low 13 bits of `packetLen`, and as itself below 8192. */
  lemma CosmicHeaderLength(packetLen: JInt)
    ensures Parse(CosmicHeader(packetLen)).frameLength as JInt == packetLen & 0x1FFF
    ensures packetLen < 0x2000 ==> Parse(CosmicHeader(packetLen)).frameLength as JInt == packetLen
  {
    LengthFieldsForAnyLength(2, 4, 1, packetLen);
  }

  /**
   * The newer service writes the same header whenever its rate maps to index 4
   * (44100 Hz, or any rate it does not know) and its channels are not "Stereo".
   */
  lemma CosmicHeaderMatchesService(sampleRate: int, channelConfig: Option<string>, packetLen: JInt)
    requires sampleRate != 22050 && sampleRate != 48000 && channelConfig != Some("Stereo")
    ensures CosmicHeader(packetLen) == CaptureService.ServiceHeader(sampleRate, channelConfig, packetLen)
  {
    assert FreqIndex(sampleRate) == 4;
    assert CaptureService.ChannelCount(channelConfig) == 1;
  }

  /** `addAdtsHeader`: the fixed header goes into `packet[0..6]`; the rest is untouched. */
  method AddAdtsHeader(packet: array<bv8>, packetLen: JInt)
    requires packet.Length >= 7
    modifies packet
    ensures packet[..7] == CosmicHeader(packetLen)
    ensures packet[7..] == old(packet[7..])
  {
    var profile: JInt := 2;
    var freqIdx: JInt := 4;
    var chanCfg: JInt := 1;
    packet[0] := ToByte(0xFF);
    packet[1] := ToByte(0xF1);
    packet[2] := ToByte(((profile - 1) << 6) + (freqIdx << 2) + Asr(chanCfg, 2));
    packet[3] := ToByte(((chanCfg & 3) << 6) + Asr(packetLen, 11));
    packet[4] := ToByte(Asr(packetLen & 0x7FF, 3));
    packet[5] := ToByte(((packetLen & 7) << 5) + 0x1F);
    packet[6] := ToByte(0xFC);
    HeaderBytesDisplay(profile, freqIdx, chanCfg, packetLen);
  }

  /** What this activity hands to the operating system. */
  datatype Request =
    | StartService(resultCode: int, data: Option<Messages.ProjectionGrant>)
    | StopService
    | LaunchScreenCapture

  class MainActivity {
    var isServiceRunning: bool
    /** Requests made, oldest first. */
    var requests: seq<Request>

    constructor ()
      ensures !isServiceRunning && requests == []
    {
      isServiceRunning := false;
      requests := [];
    }

    /** `startStopService`: stop when running; otherwise only ask for capture consent. */
    method StartStopService()
      modifies this
      ensures old(isServiceRunning) ==> !isServiceRunning && requests == old(requests) + [StopService]
      ensures !old(isServiceRunning) ==> !isServiceRunning && requests == old(requests) + [LaunchScreenCapture]
    {
      if isServiceRunning {
        requests := requests + [StopService];
        isServiceRunning := false;
      } else {
        requests := requests + [LaunchScreenCapture];
      }
    }

    /** The `startMediaProjection` callback: on RESULT_OK start the service with the grant. */
    method OnProjectionResult(resultCode: int, data: Option<Messages.ProjectionGrant>)
      modifies this
      ensures resultCode == Messages.RESULT_OK ==>
                isServiceRunning && requests == old(requests) + [StartService(resultCode, data)]
      ensures resultCode != Messages.RESULT_OK ==>
                isServiceRunning == old(isServiceRunning) && requests == old(requests)
    {
      if resultCode == Messages.RESULT_OK {
        requests := requests + [StartService(resultCode, data)];
        isServiceRunning := true;
      }
    }
  }
}
