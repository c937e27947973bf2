/**
 * The audio codec of the live session hooks: microphone samples are scaled by
 * 32768, stored into an `Int16Array` (ECMAScript ToInt16: truncate toward zero,
 * then wrap modulo 2^16), viewed as little-endian bytes and sent as base64;
 * received base64 is turned back into bytes, viewed as an `Int16Array` and
 * de-interleaved into the channels of an audio buffer.
 *
 * Samples are the exact real values of the Float32 input (multiplying a finite
 * float by 32768 is exact), and the byte order is that of a little-endian host.
 */
module PcmCodec {
  import opened Prelude
  import Base64

  /** The tag `createBlob` puts on every outbound chunk. */
  const MimeType: string := "audio/pcm;rate=16000"

  /** The full-scale factor between a float sample and a 16-bit sample. */
  const FullScale: real := 32768.0

  /** Truncation toward zero, as ToInt16 applies it to a finite number. */
  function Truncate(x: real): (n: int)
    ensures x >= 0.0 ==> n as real <= x < n as real + 1.0
    ensures x < 0.0 ==> n as real - 1.0 < x <= n as real
  {
    if x >= 0.0 then x.Floor else -((-x).Floor)
  }

  /** The modulo-2^16 step of ToInt16: the unique 16-bit value congruent to `n`. */
  function WrapInt16(n: int): (v: Int16)
    ensures (v - n) % 65536 == 0
    ensures -32768 <= n < 32768 ==> v == n
  {
    var m := n % 65536;
    if m >= 32768 then m - 65536 else m
  }

  /** What `int16[i] = sample * 32768` stores for one sample. */
  function Quantize(sample: real): (v: Int16)
    ensures (v - Truncate(sample * FullScale)) % 65536 == 0
    ensures -1.0 <= sample < 1.0 ==> v == Truncate(sample * FullScale)
  {
    WrapInt16(Truncate(sample * FullScale))
  }

  /** A sample in [-1, 1) is stored without wrapping, within one step of its exact scaled value. */
  lemma QuantizeInRange(sample: real)
    requires -1.0 <= sample < 1.0
    ensures -32768 <= Quantize(sample) <= 32767
    ensures (Quantize(sample) as real - sample * FullScale) * (Quantize(sample) as real - sample * FullScale) < 1.0
  {
    var x := sample * FullScale;
    var n := Truncate(x);
    assert -32768.0 <= x < 32768.0;
    assert -1.0 < n as real - x < 1.0;
  }

  /** Full scale wraps: the sample 1.0 becomes 32768, which ToInt16 turns into -32768. */
  lemma FullScaleWraps()
    ensures Quantize(1.0) == -32768
    ensures Quantize(-1.0) == -32768
  {
    assert Truncate(1.0 * FullScale) == 32768;
    assert Truncate(-1.0 * FullScale) == -32768;
  }

  /** The first (low) byte of a 16-bit value on a little-endian host. */
  function LowByte(v: Int16): Byte {
    (v % 65536) % 256
  }

  /** The second (high) byte of a 16-bit value on a little-endian host. */
  function HighByte(v: Int16): Byte {
    (v % 65536) / 256
  }

  /** The 16-bit value an `Int16Array` reads from a low and a high byte. */
  function Int16Of(lo: Byte, hi: Byte): Int16 {
    WrapInt16(lo + 256 * hi)
  }

  /** Reading back the two bytes of a value gives the value. */
  lemma Int16OfBytes(v: Int16)
    ensures Int16Of(LowByte(v), HighByte(v)) == v
  {
    var u := v % 65536;
    assert LowByte(v) + 256 * HighByte(v) == u;
    assert u == if v >= 0 then v else v + 65536;
  }

  /** The bytes of an `Int16Array` holding `samples`: two per sample, low byte first. */
  function Pack(samples: seq<Int16>): (b: seq<Byte>)
    ensures |b| == 2 * |samples|
    ensures forall i :: 0 <= i < |samples| ==> b[2 * i] == LowByte(samples[i]) && b[2 * i + 1] == HighByte(samples[i])
  {
    seq(2 * |samples|, k requires 0 <= k < 2 * |samples| =>
      if k % 2 == 0 then LowByte(samples[k / 2]) else HighByte(samples[k / 2]))
  }

  /** `new Int16Array(buffer)` over an even number of bytes: one value per byte pair. */
  function Int16View(b: seq<Byte>): (s: seq<Int16>)
    requires |b| % 2 == 0
    ensures |s| == |b| / 2
    ensures forall i :: 0 <= i < |s| ==> s[i] == Int16Of(b[2 * i], b[2 * i + 1])
  {
    seq(|b| / 2, i requires 0 <= i < |b| / 2 => Int16Of(b[2 * i], b[2 * i + 1]))
  }

  /** Viewing packed samples as an `Int16Array` gives the samples back. */
  lemma ViewPack(samples: seq<Int16>)
    ensures Int16View(Pack(samples)) == samples
  {
    var v := Int16View(Pack(samples));
    forall i | 0 <= i < |samples| ensures v[i] == samples[i] {
      Int16OfBytes(samples[i]);
    }
  }

  /** The bytes `createBlob` sends for a frame of samples. */
  function PcmBytes(data: seq<real>): (b: seq<Byte>)
    ensures |b| == 2 * |data|
  {
    Pack(seq(|data|, i requires 0 <= i < |data| => Quantize(data[i])))
  }

  /** The receiving side reads back exactly the quantized samples the sending side packed. */
  lemma PcmBytesRoundTrip(data: seq<real>)
    ensures |PcmBytes(data)| % 2 == 0
    ensures |Int16View(PcmBytes(data))| == |data|
    ensures forall i :: 0 <= i < |data| ==> Int16View(PcmBytes(data))[i] == Quantize(data[i])
  {
    ViewPack(seq(|data|, i requires 0 <= i < |data| => Quantize(data[i])));
  }

  /** `int16[i] = v` on an `Int16Array` over `buffer`: writes the two bytes of element `i`. */
  method StoreInt16(buffer: array<Byte>, i: nat, v: Int16)
    requires 2 * i + 1 < buffer.Length
    modifies buffer
    ensures buffer[2 * i] == LowByte(v) && buffer[2 * i + 1] == HighByte(v)
    ensures forall k :: 0 <= k < buffer.Length && k != 2 * i && k != 2 * i + 1 ==> buffer[k] == old(buffer[k])
  {
    buffer[2 * i] := LowByte(v);
    buffer[2 * i + 1] := HighByte(v);
  }

  /**
   * `encode`: builds the binary string one character per byte, then applies
   * `btoa`, which cannot throw on it. `atob` gives the binary string back.
   */
  method Encode(bytes: array<Byte>) returns (b64: string)
    ensures b64 == Base64.Encode(bytes[..])
    ensures |b64| == 4 * ((bytes.Length + 2) / 3)
    ensures Base64.Atob(b64) == Some(Base64.BinaryString(bytes[..]))
  {
    var binary := "";
    for i := 0 to bytes.Length
      invariant |binary| == i
      invariant forall k :: 0 <= k < i ==> binary[k] as int == bytes[k]
    {
      binary := binary + [bytes[i] as char];
    }
    assert binary == Base64.BinaryString(bytes[..]);
    Base64.CharCodesBinaryString(bytes[..]);
    b64 := Base64.Btoa(binary).value;
    Base64.AtobBtoa(binary);
  }

  /**
   * The loop of `createBlob`: a fresh buffer of two bytes per sample, with
   * `int16[i] = data[i] * 32768` stored for every sample.
   */
  method FillInt16Buffer(data: array<real>) returns (buffer: array<Byte>)
    ensures fresh(buffer)
    ensures buffer[..] == PcmBytes(data[..])
  {
    var l := data.Length;
    buffer := new Byte[2 * l];
    for i := 0 to l
      invariant forall k :: 0 <= k < i ==>
        buffer[2 * k] == LowByte(Quantize(data[k])) && buffer[2 * k + 1] == HighByte(Quantize(data[k]))
    {
      StoreInt16(buffer, i, Quantize(data[i]));
    }
    var input := data[..];
    var samples := seq(l, i requires 0 <= i < l => Quantize(input[i]));
    var p := Pack(samples);
    assert p == PcmBytes(input);
    forall k | 0 <= k < 2 * l ensures buffer[k] == p[k] {
      var j := k / 2;
      assert samples[j] == Quantize(data[j]);
      if k % 2 == 0 {
        assert k == 2 * j && p[2 * j] == LowByte(samples[j]);
      } else {
        assert k == 2 * j + 1 && p[2 * j + 1] == HighByte(samples[j]);
      }
    }
  }

  /** The outbound chunk: encoded data and its mime type. */
  datatype Blob = Blob(data: string, mimeType: string)

  /**
   * `createBlob`: stores every sample into an `Int16Array` and sends its bytes.
   * The payload decodes to two bytes per sample, each sample's quantized value
   * low byte first.
   */
  method CreateBlob(data: array<real>) returns (blob: Blob)
    ensures blob.mimeType == MimeType
    ensures blob.data == Base64.Encode(PcmBytes(data[..]))
    ensures Base64.Decode(blob.data) == Some(PcmBytes(data[..]))
  {
    var buffer := FillInt16Buffer(data);
    var b64 := Encode(buffer);
    Base64.DecodeEncode(buffer[..]);
    blob := Blob(b64, MimeType);
  }

  /**
   * The `onaudioprocess` handler both hooks install: the captured block becomes
   * a PCM blob, which is sent only when a session has been requested.
   */
  method AudioProcessed(inputData: array<real>, sessionRequested: bool) returns (sent: Option<Blob>)
    ensures sessionRequested ==>
      sent.Some? && sent.value.mimeType == MimeType
      && Base64.Decode(sent.value.data) == Some(PcmBytes(inputData[..]))
    ensures !sessionRequested ==> sent.None?
  {
    var blob := CreateBlob(inputData);
    if sessionRequested {
      sent := Some(blob);
    } else {
      sent := None;
    }
  }

  /**
   * `decode`: `atob`, then each character code into a fresh `Uint8Array`.
   * `None` when `atob` throws.
   */
  method Decode(base64: string) returns (r: Option<array<Byte>>)
    ensures r.None? <==> Base64.Decode(base64).None?
    ensures r.Some? ==> fresh(r.value) && Some(r.value[..]) == Base64.Decode(base64)
  {
    var binaryString := Base64.Atob(base64);
    if binaryString.None? {
      return None;
    }
    var s := binaryString.value;
    var bytes := new Byte[|s|];
    for i := 0 to |s|
      invariant forall k :: 0 <= k < i ==> bytes[k] == s[k] as int
    {
      bytes[i] := s[i] as int;
    }
    Base64.CharCodesBinaryString(Base64.Decode(base64).value);
    assert bytes[..] == Base64.CharCodes(s);
    r := Some(bytes);
  }

  /** Why an audio buffer could not be built. */
  datatype AudioError =
    | RangeError     // `new Int16Array(buffer)` over an odd number of bytes
    | NotSupported   // `createBuffer` with no channel or no frame

  /** The number of whole frames in `sampleCount` interleaved samples. */
  function FrameCount(sampleCount: nat, numChannels: int): nat
    requires numChannels >= 1
  {
    sampleCount / numChannels
  }

  /** Frame `i` of an interleaved stream has its samples below the stream's end. */
  lemma InterleavedIndexInRange(sampleCount: nat, numChannels: int, channel: int, i: int)
    requires numChannels >= 1 && 0 <= channel < numChannels && 0 <= i < FrameCount(sampleCount, numChannels)
    ensures 0 <= i * numChannels + channel < sampleCount
  {
    var f := FrameCount(sampleCount, numChannels);
    assert (i + 1) * numChannels <= f * numChannels;
    assert f * numChannels <= sampleCount;
  }

  /** Channel `channel`, frame `i` of an interleaved 16-bit stream, scaled to [-1, 1). */
  function ChannelSample(view: seq<Int16>, numChannels: int, channel: int, i: int): (x: real)
    requires numChannels >= 1 && 0 <= channel < numChannels && 0 <= i < FrameCount(|view|, numChannels)
    ensures -1.0 <= x < 1.0
  {
    InterleavedIndexInRange(|view|, numChannels, channel, i);
    view[i * numChannels + channel] as real / FullScale
  }

  /** The inner loop of `decodeAudioData`: fills one channel's row and leaves the other rows as they were. */
  method FillChannel(buffer: array2<real>, view: seq<Int16>, numChannels: int, channel: int)
    requires numChannels >= 1 && 0 <= channel < numChannels
    requires buffer.Length0 == numChannels && buffer.Length1 == FrameCount(|view|, numChannels)
    modifies buffer
    ensures forall i :: 0 <= i < buffer.Length1 ==> buffer[channel, i] == ChannelSample(view, numChannels, channel, i)
    ensures forall c, i :: 0 <= c < buffer.Length0 && c != channel && 0 <= i < buffer.Length1 ==>
      buffer[c, i] == old(buffer[c, i])
  {
    for i := 0 to buffer.Length1
      invariant forall j :: 0 <= j < i ==> buffer[channel, j] == ChannelSample(view, numChannels, channel, j)
      invariant forall c, j :: 0 <= c < buffer.Length0 && c != channel && 0 <= j < buffer.Length1 ==>
        buffer[c, j] == old(buffer[c, j])
    {
      InterleavedIndexInRange(|view|, numChannels, channel, i);
      buffer[channel, i] := view[i * numChannels + channel] as real / FullScale;
    }
  }

  /**
   * `decodeAudioData`: views the bytes as 16-bit samples and splits them into
   * `numChannels` channels of `FrameCount` frames each; a trailing incomplete
   * frame is dropped (writes past a channel's end are ignored). Fails on an odd
   * byte count, no channel, or no complete frame. The context's upper limit on
   * channels is not modelled: the hook decodes one channel.
   */
  method DecodeAudioData(data: array<Byte>, numChannels: int) returns (r: Result<array2<real>, AudioError>)
    ensures data.Length % 2 != 0 ==> r == Failure(RangeError)
    ensures data.Length % 2 == 0 && (numChannels < 1 || FrameCount(data.Length / 2, numChannels) == 0) ==>
      r == Failure(NotSupported)
    ensures r.Success? <==> data.Length % 2 == 0 && numChannels >= 1 && FrameCount(data.Length / 2, numChannels) > 0
    ensures r.Success? ==>
      && fresh(r.value)
      && r.value.Length0 == numChannels
      && r.value.Length1 == FrameCount(data.Length / 2, numChannels) > 0
      && forall c, i :: 0 <= c < numChannels && 0 <= i < r.value.Length1 ==>
           r.value[c, i] == ChannelSample(Int16View(data[..]), numChannels, c, i)
  {
    if data.Length % 2 != 0 {
      return Failure(RangeError);
    }
    var dataInt16 := Int16View(data[..]);
    if numChannels < 1 || FrameCount(|dataInt16|, numChannels) == 0 {
      return Failure(NotSupported);
    }
    var frameCount := FrameCount(|dataInt16|, numChannels);
    var buffer := new real[numChannels, frameCount];
    for channel := 0 to numChannels
      invariant forall c, i :: 0 <= c < channel && 0 <= i < frameCount ==>
        buffer[c, i] == ChannelSample(dataInt16, numChannels, c, i)
    {
      FillChannel(buffer, dataInt16, numChannels, channel);
    }
    r := Success(buffer);
  }

  /** With one channel nothing is reordered: sample `i` is the `i`-th 16-bit value, and every index is in bounds. */
  lemma MonoKeepsOrder(view: seq<Int16>, i: int)
    requires 0 <= i < |view|
    ensures FrameCount(|view|, 1) == |view|
    ensures ChannelSample(view, 1, 0, i) == view[i] as real / FullScale
  {
  }
}
