/**
 * The 7-byte ADTS header (no CRC) that precedes each AAC frame sent to the
 * receiver: `adts_fixed_header` and `adts_variable_header` of ISO/IEC 13818-7
 * section 6.2 (the ADTS of ISO/IEC 14496-3 Annex 1.A).
 *
 * Java's `int` arithmetic is modelled exactly on its 32-bit two's complement
 * representation (`bv32`), and a Java `byte` by its eight bits (`bv8`).
 */
module Adts {

  /** A Java `int`, as its 32 bits. */
  type JInt = bv32

  /** Java's `x >> n` on `int`: an arithmetic shift, which copies the sign bit. */
  function Asr(x: JInt, n: nat): (r: JInt)
    requires n < 32
    ensures x & 0x8000_0000 == 0 ==> r == x >> n
  {
    if x & 0x8000_0000 == 0 then x >> n else !((!x) >> n)
  }

  /** Java's `(byte) x`: the low eight bits. */
  function ToByte(x: JInt): (b: bv8)
    ensures x <= 0xFF ==> b as JInt == x
  {
    (x & 0xFF) as bv8
  }

  /** Sampling frequencies by `sampling_frequency_index` (ISO/IEC 14496-3, subpart 1). */
  const SamplingFrequencies: seq<int> :=
    [96000, 88200, 64000, 48000, 44100, 32000, 24000, 22050, 16000, 12000, 11025, 8000, 7350]

  /** `getFreqIndex`: the standard index of 22050, 44100 and 48000 Hz; any other rate gets 44100's. */
  function FreqIndex(sampleRate: int): (idx: JInt)
    ensures idx < 13 && |SamplingFrequencies| == 13
    ensures sampleRate in {22050, 44100, 48000} ==> SamplingFrequencies[idx as int] == sampleRate
    ensures sampleRate !in {22050, 44100, 48000} ==> SamplingFrequencies[idx as int] == 44100
  {
    if sampleRate == 22050 then 7
    else if sampleRate == 44100 then 4
    else if sampleRate == 48000 then 3
    else 4
  }

  /**
   * The seven `int`s the Java code casts to `byte`, for a given profile
   * (`profile - 1` is the Object Type field), frequency index, channel
   * configuration and frame length `packetLen`.
   */
  function HeaderInts(profile: JInt, freqIdx: JInt, chanCfg: JInt, packetLen: JInt): (v: seq<JInt>)
    ensures |v| == 7
  {
    [ 0xFF,
      0xF1,
      ((profile - 1) << 6) + (freqIdx << 2) + Asr(chanCfg, 2),
      ((chanCfg & 3) << 6) + Asr(packetLen, 11),
      Asr(packetLen & 0x7FF, 3),
      ((packetLen & 7) << 5) + 0x1F,
      0xFC ]
  }

  /** The bytes `addAdtsHeader` stores in `packet[0..6]`. */
  function HeaderBytes(profile: JInt, freqIdx: JInt, chanCfg: JInt, packetLen: JInt): (h: seq<bv8>)
    ensures |h| == 7
  {
    var v := HeaderInts(profile, freqIdx, chanCfg, packetLen);
    [ToByte(v[0]), ToByte(v[1]), ToByte(v[2]), ToByte(v[3]), ToByte(v[4]), ToByte(v[5]), ToByte(v[6])]
  }

  /** `HeaderBytes` written out byte by byte, as the assignments to `packet[0..6]` read. */
  lemma HeaderBytesDisplay(profile: JInt, freqIdx: JInt, chanCfg: JInt, packetLen: JInt)
    ensures HeaderBytes(profile, freqIdx, chanCfg, packetLen) ==
            [ ToByte(0xFF),
              ToByte(0xF1),
              ToByte(((profile - 1) << 6) + (freqIdx << 2) + Asr(chanCfg, 2)),
              ToByte(((chanCfg & 3) << 6) + Asr(packetLen, 11)),
              ToByte(Asr(packetLen & 0x7FF, 3)),
              ToByte(((packetLen & 7) << 5) + 0x1F),
              ToByte(0xFC) ]
  {
  }

  /** The fields of an ADTS header without CRC, in stream order, each in the low bits of a `bv16`. */
  datatype Header = Header(
    syncword: bv16,                 // 12 bits
    id: bv16,                       // 1
    layer: bv16,                    // 2
    protectionAbsent: bv16,         // 1
    profile: bv16,                  // 2: profile_ObjectType, the Audio Object Type minus one
    samplingFrequencyIndex: bv16,   // 4
    privateBit: bv16,               // 1
    channelConfiguration: bv16,     // 3
    originalCopy: bv16,             // 1
    home: bv16,                     // 1
    copyrightIdBit: bv16,           // 1
    copyrightIdStart: bv16,         // 1
    frameLength: bv16,              // 13: header included
    bufferFullness: bv16,           // 11
    rawDataBlocks: bv16)            // 2: number_of_raw_data_blocks_in_frame minus one

  /** Every field fits its width. */
  predicate WellFormed(h: Header) {
    && h.syncword < 0x1000 && h.id < 2 && h.layer < 4 && h.protectionAbsent < 2
    && h.profile < 4 && h.samplingFrequencyIndex < 16 && h.privateBit < 2
    && h.channelConfiguration < 8 && h.originalCopy < 2 && h.home < 2
    && h.copyrightIdBit < 2 && h.copyrightIdStart < 2 && h.frameLength < 0x2000
    && h.bufferFullness < 0x800 && h.rawDataBlocks < 4
  }

  function Lo8(x: bv16): bv8 {
    (x & 0xFF) as bv8
  }

  /** Pack the fields, most significant bit first. */
  function Encode(h: Header): (b: seq<bv8>)
    ensures |b| == 7
  {
    [ Lo8(h.syncword >> 4),
      Lo8((h.syncword << 4) | (h.id << 3) | (h.layer << 1) | h.protectionAbsent),
      Lo8((h.profile << 6) | (h.samplingFrequencyIndex << 2) | (h.privateBit << 1) | (h.channelConfiguration >> 2)),
      Lo8((h.channelConfiguration << 6) | (h.originalCopy << 5) | (h.home << 4) | (h.copyrightIdBit << 3)
          | (h.copyrightIdStart << 2) | (h.frameLength >> 11)),
      Lo8(h.frameLength >> 3),
      Lo8((h.frameLength << 5) | (h.bufferFullness >> 6)),
      Lo8((h.bufferFullness << 2) | h.rawDataBlocks) ]
  }

  /** Read the fields back from the first seven bytes. */
  function Parse(b: seq<bv8>): (h: Header)
    requires |b| >= 7
    ensures WellFormed(h)
  {
    var w0, w1, w2, w3, w4, w5, w6 :=
      b[0] as bv16, b[1] as bv16, b[2] as bv16, b[3] as bv16, b[4] as bv16, b[5] as bv16, b[6] as bv16;
    Header(
      (w0 << 4) | (w1 >> 4),
      (w1 >> 3) & 1,
      (w1 >> 1) & 3,
      w1 & 1,
      w2 >> 6,
      (w2 >> 2) & 0xF,
      (w2 >> 1) & 1,
      ((w2 & 1) << 2) | (w3 >> 6),
      (w3 >> 5) & 1,
      (w3 >> 4) & 1,
      (w3 >> 3) & 1,
      (w3 >> 2) & 1,
      ((w3 & 3) << 11) | (w4 << 3) | (w5 >> 5),
      ((w5 & 0x1F) << 6) | (w6 >> 2),
      w6 & 3)
  }

  /** Parsing inverts encoding on well-formed headers. */
  lemma ParseEncode(h: Header)
    requires WellFormed(h)
    ensures Parse(Encode(h)) == h
  {
  }

  /** Every seven bytes are the encoding of the header they parse to. */
  lemma EncodeParse(b: seq<bv8>)
    requires |b| == 7
    ensures Encode(Parse(b)) == b
  {
  }

  /** The header `addAdtsHeader` means to write for an AAC frame of the given Object Type. */
  function IntendedHeader(profile: JInt, freqIdx: JInt, chanCfg: JInt, frameLength: JInt): Header {
    Header(0xFFF, 0, 0, 1, ((profile - 1) & 3) as bv16, (freqIdx & 0xF) as bv16, 0, (chanCfg & 7) as bv16,
           0, 0, 0, 0, (frameLength & 0x1FFF) as bv16, 0x7FF, 0)
  }

  /**
   * For a frame shorter than 8192 bytes no field spills into its neighbour:
   * every `int` cast is already a byte, and the bytes are the standard encoding
   * of the intended header.
   */
  lemma HeaderBytesAreStandard(profile: JInt, freqIdx: JInt, chanCfg: JInt, packetLen: JInt)
    requires 1 <= profile <= 4 && freqIdx < 16 && chanCfg < 8 && packetLen < 0x2000
    ensures forall i :: 0 <= i < 7 ==> HeaderInts(profile, freqIdx, chanCfg, packetLen)[i] <= 0xFF
    ensures HeaderBytes(profile, freqIdx, chanCfg, packetLen) == Encode(IntendedHeader(profile, freqIdx, chanCfg, packetLen))
    ensures Parse(HeaderBytes(profile, freqIdx, chanCfg, packetLen)) == IntendedHeader(profile, freqIdx, chanCfg, packetLen)
  {
    var h := IntendedHeader(profile, freqIdx, chanCfg, packetLen);
    ConstantBytes(profile, freqIdx, chanCfg, packetLen);
    ProfileByte(profile, freqIdx, chanCfg, packetLen);
    ChannelByte(profile, freqIdx, chanCfg, packetLen);
    LengthByte(profile, freqIdx, chanCfg, packetLen);
    FullnessByte(profile, freqIdx, chanCfg, packetLen);
    ParseEncode(h);
  }

  /** Bytes 0, 1 and 6: syncword, ID, layer, protection_absent; buffer fullness bits 5..0, raw data blocks. */
  lemma ConstantBytes(profile: JInt, freqIdx: JInt, chanCfg: JInt, packetLen: JInt)
    requires 1 <= profile <= 4 && freqIdx < 16 && chanCfg < 8 && packetLen < 0x2000
    ensures forall i :: i in {0, 1, 6} ==> HeaderInts(profile, freqIdx, chanCfg, packetLen)[i] <= 0xFF
    ensures forall i :: i in {0, 1, 6} ==>
      HeaderBytes(profile, freqIdx, chanCfg, packetLen)[i] == Encode(IntendedHeader(profile, freqIdx, chanCfg, packetLen))[i]
  {
  }

  /** Byte 2: profile, sampling frequency index, private bit, channel configuration bit 2. */
  lemma ProfileByte(profile: JInt, freqIdx: JInt, chanCfg: JInt, packetLen: JInt)
    requires 1 <= profile <= 4 && freqIdx < 16 && chanCfg < 8 && packetLen < 0x2000
    ensures HeaderInts(profile, freqIdx, chanCfg, packetLen)[2] <= 0xFF
    ensures HeaderBytes(profile, freqIdx, chanCfg, packetLen)[2] == Encode(IntendedHeader(profile, freqIdx, chanCfg, packetLen))[2]
  {
  }

  /** Byte 3: channel configuration bits 1..0, four zero flags, frame length bits 12..11. */
  lemma ChannelByte(profile: JInt, freqIdx: JInt, chanCfg: JInt, packetLen: JInt)
    requires 1 <= profile <= 4 && freqIdx < 16 && chanCfg < 8 && packetLen < 0x2000
    ensures HeaderInts(profile, freqIdx, chanCfg, packetLen)[3] <= 0xFF
    ensures HeaderBytes(profile, freqIdx, chanCfg, packetLen)[3] == Encode(IntendedHeader(profile, freqIdx, chanCfg, packetLen))[3]
  {
  }

  /** Byte 4: frame length bits 10..3. */
  lemma LengthByte(profile: JInt, freqIdx: JInt, chanCfg: JInt, packetLen: JInt)
    requires 1 <= profile <= 4 && freqIdx < 16 && chanCfg < 8 && packetLen < 0x2000
    ensures HeaderInts(profile, freqIdx, chanCfg, packetLen)[4] <= 0xFF
    ensures HeaderBytes(profile, freqIdx, chanCfg, packetLen)[4] == Encode(IntendedHeader(profile, freqIdx, chanCfg, packetLen))[4]
  {
  }

  /** Byte 5: frame length bits 2..0, buffer fullness bits 10..6. */
  lemma FullnessByte(profile: JInt, freqIdx: JInt, chanCfg: JInt, packetLen: JInt)
    requires 1 <= profile <= 4 && freqIdx < 16 && chanCfg < 8 && packetLen < 0x2000
    ensures HeaderInts(profile, freqIdx, chanCfg, packetLen)[5] <= 0xFF
    ensures HeaderBytes(profile, freqIdx, chanCfg, packetLen)[5] == Encode(IntendedHeader(profile, freqIdx, chanCfg, packetLen))[5]
  {
  }

  /**
   * For ANY `int` length, as written: the 13-bit frame length reads back as the
   * low 13 bits of the length, and its bits 13..16 land in the four
   * original/home/copyright flags; the other fields stay as intended while the
   * length is in 0..2^17-1.
   */
  lemma HeaderBytesForAnyLength(profile: JInt, freqIdx: JInt, chanCfg: JInt, packetLen: JInt)
    requires 1 <= profile <= 4 && freqIdx < 16 && chanCfg < 8
    ensures var h := Parse(HeaderBytes(profile, freqIdx, chanCfg, packetLen));
            && h.frameLength as JInt == packetLen & 0x1FFF
            && ((h.originalCopy << 3) | (h.home << 2) | (h.copyrightIdBit << 1) | h.copyrightIdStart) as JInt
               == (packetLen >> 13) & 0xF
            && h.syncword == 0xFFF && h.id == 0 && h.layer == 0 && h.protectionAbsent == 1
            && h.profile as JInt == profile - 1 && h.samplingFrequencyIndex as JInt == freqIdx
            && h.privateBit == 0 && h.bufferFullness == 0x7FF && h.rawDataBlocks == 0
            && (packetLen < 0x2_0000 ==> h.channelConfiguration as JInt == chanCfg)
  {
    FixedFieldsForAnyLength(profile, freqIdx, chanCfg, packetLen);
    LengthFieldsForAnyLength(profile, freqIdx, chanCfg, packetLen);
    FlagFieldsForAnyLength(profile, freqIdx, chanCfg, packetLen);
    ChannelForAnyLength(profile, freqIdx, chanCfg, packetLen);
  }

  /** Bytes 0, 1 and 6 are constants. */
  lemma SyncBytes(profile: JInt, freqIdx: JInt, chanCfg: JInt, packetLen: JInt)
    ensures var b := HeaderBytes(profile, freqIdx, chanCfg, packetLen);
            b[0] == 0xFF && b[1] == 0xF1 && b[6] == 0xFC
  {
  }

  /** Bytes 0, 1, 2 and 6 do not depend on the length. */
  lemma FixedFieldsForAnyLength(profile: JInt, freqIdx: JInt, chanCfg: JInt, packetLen: JInt)
    requires 1 <= profile <= 4 && freqIdx < 16 && chanCfg < 8
    ensures var h := Parse(HeaderBytes(profile, freqIdx, chanCfg, packetLen));
            && h.syncword == 0xFFF && h.id == 0 && h.layer == 0 && h.protectionAbsent == 1
            && h.profile as JInt == profile - 1 && h.samplingFrequencyIndex as JInt == freqIdx
            && h.privateBit == 0 && h.rawDataBlocks == 0
  {
  }

  /** The length is spread over bytes 3..5. */
  lemma LengthFieldsForAnyLength(profile: JInt, freqIdx: JInt, chanCfg: JInt, packetLen: JInt)
    requires 1 <= profile <= 4 && freqIdx < 16 && chanCfg < 8
    ensures Parse(HeaderBytes(profile, freqIdx, chanCfg, packetLen)).frameLength as JInt == packetLen & 0x1FFF
  {
    LengthBytes(profile, freqIdx, chanCfg, packetLen);
    FrameLengthOfHeaderBytes(profile, freqIdx, chanCfg, packetLen);
  }

  lemma FrameLengthOfHeaderBytes(profile: JInt, freqIdx: JInt, chanCfg: JInt, packetLen: JInt)
    requires var b := HeaderBytes(profile, freqIdx, chanCfg, packetLen);
             && b[3] & 0x3F == ((packetLen >> 11) & 0x3F) as bv8
             && b[4] == ((packetLen >> 3) & 0xFF) as bv8
             && b[5] == (((packetLen & 7) << 5) | 0x1F) as bv8
    ensures Parse(HeaderBytes(profile, freqIdx, chanCfg, packetLen)).frameLength as JInt == packetLen & 0x1FFF
  {
    FrameLengthOfBytes(HeaderBytes(profile, freqIdx, chanCfg, packetLen), packetLen);
  }

  /** The length's bits 13..16 fall into the flags of byte 3; the buffer fullness fills bytes 5 and 6. */
  lemma FlagFieldsForAnyLength(profile: JInt, freqIdx: JInt, chanCfg: JInt, packetLen: JInt)
    requires 1 <= profile <= 4 && freqIdx < 16 && chanCfg < 8
    ensures var h := Parse(HeaderBytes(profile, freqIdx, chanCfg, packetLen));
            && ((h.originalCopy << 3) | (h.home << 2) | (h.copyrightIdBit << 1) | h.copyrightIdStart) as JInt
               == (packetLen >> 13) & 0xF
            && h.bufferFullness == 0x7FF
  {
    var b := HeaderBytes(profile, freqIdx, chanCfg, packetLen);
    LowBitsOfByte3(chanCfg, packetLen);
    Byte5(packetLen);
    FlagsOfBytes(b, packetLen);
  }

  /** Bytes 3..5 hold the length, bits 16..0. */
  lemma LengthBytes(profile: JInt, freqIdx: JInt, chanCfg: JInt, packetLen: JInt)
    requires chanCfg < 8
    ensures var b := HeaderBytes(profile, freqIdx, chanCfg, packetLen);
            && b[3] & 0x3F == ((packetLen >> 11) & 0x3F) as bv8
            && b[4] == ((packetLen >> 3) & 0xFF) as bv8
            && b[5] == (((packetLen & 7) << 5) | 0x1F) as bv8
  {
    LowBitsOfByte3(chanCfg, packetLen);
    Byte4(packetLen);
    Byte5(packetLen);
  }

  /** Bits 5..0 of byte 3 are bits 16..11 of the length, whatever its sign. */
  lemma LowBitsOfByte3(chanCfg: JInt, packetLen: JInt)
    requires chanCfg < 8
    ensures ToByte(((chanCfg & 3) << 6) + Asr(packetLen, 11)) & 0x3F == ((packetLen >> 11) & 0x3F) as bv8
  {
    AsrLowBits(packetLen);
    AddAboveLowBits(chanCfg & 3, Asr(packetLen, 11));
    ToByteLowBits(((chanCfg & 3) << 6) + Asr(packetLen, 11));
  }

  lemma AsrLowBits(x: JInt)
    ensures Asr(x, 11) & 0x3F == (x >> 11) & 0x3F
  {
  }

  lemma AddAboveLowBits(a: JInt, y: JInt)
    ensures ((a << 6) + y) & 0x3F == y & 0x3F
  {
  }

  lemma ToByteLowBits(z: JInt)
    ensures ToByte(z) & 0x3F == (z & 0x3F) as bv8
  {
  }

  /** Byte 4 is bits 10..3 of the length. */
  lemma Byte4(packetLen: JInt)
    ensures ToByte(Asr(packetLen & 0x7FF, 3)) == ((packetLen >> 3) & 0xFF) as bv8
  {
  }

  /** Byte 5 is bits 2..0 of the length followed by five one bits. */
  lemma Byte5(packetLen: JInt)
    ensures ToByte(((packetLen & 7) << 5) + 0x1F) == (((packetLen & 7) << 5) | 0x1F) as bv8
  {
  }

  lemma FrameLengthOfBytes(b: seq<bv8>, packetLen: JInt)
    requires |b| >= 7
    requires b[3] & 0x3F == ((packetLen >> 11) & 0x3F) as bv8
    requires b[4] == ((packetLen >> 3) & 0xFF) as bv8
    requires b[5] == (((packetLen & 7) << 5) | 0x1F) as bv8
    ensures Parse(b).frameLength as JInt == packetLen & 0x1FFF
  {
  }

  lemma FlagsOfBytes(b: seq<bv8>, packetLen: JInt)
    requires |b| >= 7
    requires b[3] & 0x3F == ((packetLen >> 11) & 0x3F) as bv8
    requires b[5] == (((packetLen & 7) << 5) | 0x1F) as bv8
    requires b[6] == 0xFC
    ensures var h := Parse(b);
            && ((h.originalCopy << 3) | (h.home << 2) | (h.copyrightIdBit << 1) | h.copyrightIdStart) as JInt
               == (packetLen >> 13) & 0xF
            && h.bufferFullness == 0x7FF
  {
  }

  /** The channel configuration is split over bytes 2 and 3; the length's bits from 17 on would add into it. */
  lemma ChannelForAnyLength(profile: JInt, freqIdx: JInt, chanCfg: JInt, packetLen: JInt)
    requires 1 <= profile <= 4 && freqIdx < 16 && chanCfg < 8
    ensures packetLen < 0x2_0000 ==>
              Parse(HeaderBytes(profile, freqIdx, chanCfg, packetLen)).channelConfiguration as JInt == chanCfg
  {
  }
}
