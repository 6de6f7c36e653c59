/**
 * The byte and sample codecs of utils/audioUtils.ts: the Base64 wrappers around `btoa` /
 * `atob`, the conversion of microphone samples to 16-bit PCM bytes, the blob sent to the
 * live API, and the de-interleaving of received PCM into channel buffers.
 *
 * Floating-point sample values are not modelled: the clamp-and-scale step that turns a
 * Float32 sample into an Int16 is the parameter `quantize`, and the received Int16 values
 * are kept as integers instead of being divided by 32768. The platform's byte order for
 * Int16 values is the parameter `layout` (sample to its two bytes in memory order) and
 * `join` (two bytes in memory order to the sample).
 */
module AudioUtils {
  import opened Types
  import Base64

  /** A value an `Int16Array` element can hold. */
  type Int16 = x: int | -32768 <= x < 32768

  /** The mime type of every audio blob sent to the live API. */
  const PCM_MIME_TYPE: string := "audio/pcm;rate=16000"

  /** The `{ data, mimeType }` record sent with each microphone frame. */
  datatype Blob = Blob(data: string, mimeType: string)

  // ---------------------------------------------------------------------------------------
  // Base64 wrappers
  // ---------------------------------------------------------------------------------------

  /**
   * `base64Encode`: builds the binary string with one character per byte, character i
   * having code `bytes[i]`, and returns `btoa` of it, which is the RFC 4648 encoding of
   * the bytes.
   */
  method Base64Encode(bytes: array<bv8>) returns (s: string)
    ensures Base64.Btoa(Base64.BinaryString(bytes[..])) == Some(s)
    ensures s == Base64.Encode(bytes[..])
    ensures |s| == 4 * ((bytes.Length + 2) / 3)
  {
    var binary := "";
    var len := bytes.Length;
    for i := 0 to len
      invariant binary == Base64.BinaryString(bytes[..i])
    {
      assert Base64.BinaryString(bytes[..i + 1]) == Base64.BinaryString(bytes[..i]) + [Base64.CharOf(bytes[i])];
      binary := binary + [Base64.CharOf(bytes[i])];
    }
    assert bytes[..len] == bytes[..];
    Base64.AtobInvertsBtoa(bytes[..]);
    s := Base64.Btoa(binary).value;
  }

  /**
   * `base64Decode`: `None` where `atob` throws; otherwise a fresh byte array holding the
   * codes of the binary string `atob` returns, one byte per character.
   */
  method Base64Decode(base64: string) returns (r: Option<array<bv8>>)
    ensures r.None? <==> Base64.Atob(base64).None?
    ensures r.Some? ==> fresh(r.value)
    ensures r.Some? ==> r.value[..] == Base64.Codes(Base64.Atob(base64).value)
  {
    var decoded := Base64.Atob(base64);
    if decoded.None? {
      return None;
    }
    var binaryString := decoded.value;
    var len := |binaryString|;
    var bytes := new bv8[len];
    for i := 0 to len
      invariant bytes[..i] == Base64.Codes(binaryString)[..i]
    {
      // every code of an `atob` result is below 256, so the Uint8Array stores it unchanged
      bytes[i] := (binaryString[i] as int) as bv8;
    }
    assert bytes[..] == bytes[..len];
    return Some(bytes);
  }

  /**
   * The round trip of the two wrappers: `atob` accepts `base64Encode(b)` and returns a
   * binary string whose codes are `b`, so `base64Decode(base64Encode(b))` is `b`.
   */
  lemma DecodeOfEncode(b: seq<bv8>)
    ensures var decoded := Base64.Atob(Base64.Encode(b));
      decoded.Some? && Base64.Codes(decoded.value) == b
  {
    Base64.AtobInvertsBtoa(b);
    Base64.CodesOfBinaryString(b);
  }

  // ---------------------------------------------------------------------------------------
  // PCM samples and bytes
  // ---------------------------------------------------------------------------------------

  /** The samples `pcmToWav` stores, one per input sample. */
  function Quantized(data: seq<real>, quantize: real -> Int16): (q: seq<Int16>)
    ensures |q| == |data|
  {
    seq(|data|, i requires 0 <= i < |data| => quantize(data[i]))
  }

  /** The memory bytes of an `Int16Array`: the two bytes of each sample in turn. */
  function SampleBytes(samples: seq<Int16>, layout: Int16 -> (bv8, bv8)): (b: seq<bv8>)
    ensures |b| == 2 * |samples|
  {
    if samples == [] then []
    else [layout(samples[0]).0, layout(samples[0]).1] + SampleBytes(samples[1..], layout)
  }

  lemma {:induction false} SampleBytesAt(samples: seq<Int16>, layout: Int16 -> (bv8, bv8), i: nat)
    requires i < |samples|
    ensures SampleBytes(samples, layout)[2 * i] == layout(samples[i]).0
    ensures SampleBytes(samples, layout)[2 * i + 1] == layout(samples[i]).1
  {
    if i > 0 {
      SampleBytesAt(samples[1..], layout, i - 1);
    }
  }

  /** `new Int16Array(buffer)` over a buffer of even length: one sample per two bytes. */
  function Int16View(bytes: seq<bv8>, join: (bv8, bv8) -> Int16): (s: seq<Int16>)
    requires |bytes| % 2 == 0
    ensures |s| == |bytes| / 2
  {
    seq(|bytes| / 2, i requires 0 <= i < |bytes| / 2 => join(bytes[2 * i], bytes[2 * i + 1]))
  }

  /** Reading the bytes back with the matching byte order gives the same samples. */
  lemma Int16ViewOfSampleBytes(samples: seq<Int16>, layout: Int16 -> (bv8, bv8), join: (bv8, bv8) -> Int16)
    requires forall x :: join(layout(x).0, layout(x).1) == x
    ensures Int16View(SampleBytes(samples, layout), join) == samples
  {
    var v := Int16View(SampleBytes(samples, layout), join);
    forall i | 0 <= i < |samples| ensures v[i] == samples[i] {
      SampleBytesAt(samples, layout, i);
    }
  }

  /**
   * `pcmToWav`: fills an `Int16Array` as long as the input and returns a byte view over
   * its buffer, so exactly two bytes per input sample.
   */
  method PcmToWav(data: array<real>, quantize: real -> Int16, layout: Int16 -> (bv8, bv8))
    returns (bytes: array<bv8>)
    ensures fresh(bytes)
    ensures bytes[..] == SampleBytes(Quantized(data[..], quantize), layout)
    ensures bytes.Length == 2 * data.Length
  {
    var l := data.Length;
    var int16 := new Int16[l];
    for i := 0 to l
      invariant forall k :: 0 <= k < i ==> int16[k] == quantize(data[k])
    {
      int16[i] := quantize(data[i]);
    }
    assert int16[..] == Quantized(data[..], quantize);
    var view := SampleBytes(int16[..], layout);
    bytes := new bv8[|view|](k requires 0 <= k < |view| => view[k]);
    assert bytes[..] == view;
  }

  /**
   * `createAudioBlob`: the mime type is always `audio/pcm;rate=16000` and the data is
   * `base64Encode(pcmToWav(data))`.
   */
  method CreateAudioBlob(data: array<real>, quantize: real -> Int16, layout: Int16 -> (bv8, bv8))
    returns (blob: Blob)
    ensures blob.mimeType == PCM_MIME_TYPE
    ensures blob.data == Base64.Encode(SampleBytes(Quantized(data[..], quantize), layout))
    ensures |blob.data| == 4 * ((2 * data.Length + 2) / 3)
  {
    var pcmData := PcmToWav(data, quantize, layout);
    var encoded := Base64Encode(pcmData);
    blob := Blob(encoded, PCM_MIME_TYPE);
  }

  // ---------------------------------------------------------------------------------------
  // De-interleaving received PCM
  // ---------------------------------------------------------------------------------------

  lemma MulMonotone(a: nat, b: nat, n: nat)
    requires a <= b
    ensures a * n <= b * n
  {
  }

  /**
   * Every read `decodeAudioData` keeps lies inside the sample buffer: for a frame below
   * the truncated frame count `sampleCount / numChannels` and any channel, the index
   * `i * numChannels + channel` is below `sampleCount`.
   */
  lemma ReadIndexInRange(sampleCount: nat, numChannels: nat, i: nat, channel: nat)
    requires numChannels >= 1 && channel < numChannels
    requires i < sampleCount / numChannels
    ensures i * numChannels + channel < sampleCount
  {
    MulMonotone(i + 1, sampleCount / numChannels, numChannels);
    assert (i + 1) * numChannels == i * numChannels + numChannels;
  }

  /** `i` is below the ceiling `q` of `sampleCount / numChannels` exactly when `i * numChannels < sampleCount`. */
  lemma BelowCeiling(sampleCount: nat, numChannels: nat, i: nat, q: nat)
    requires numChannels >= 1 && q == (sampleCount + numChannels - 1) / numChannels
    ensures i * numChannels < sampleCount <==> i < q
  {
    var r := sampleCount + numChannels - 1;
    assert q * numChannels <= r < q * numChannels + numChannels;
    if i < q {
      MulMonotone(i + 1, q, numChannels);
      assert (i + 1) * numChannels == i * numChannels + numChannels;
    } else {
      MulMonotone(q, i, numChannels);
    }
  }

  /** With no remainder, `i * numChannels < sampleCount` exactly when `i` is below the quotient `f`. */
  lemma BelowQuotient(sampleCount: nat, numChannels: nat, i: nat, f: nat)
    requires numChannels >= 1 && sampleCount == f * numChannels
    ensures i * numChannels < sampleCount <==> i < f
  {
    if i < f {
      MulMonotone(i + 1, f, numChannels);
      assert (i + 1) * numChannels == i * numChannels + numChannels;
    } else {
      MulMonotone(f, i, numChannels);
    }
  }

  /**
   * The loop `for (i = 0; i < frameCount; i++)` runs over the real quotient
   * `sampleCount / numChannels`: it visits exactly the `i` with `i * numChannels <
   * sampleCount`, which are the frames below the rounded-up quotient. When the sample
   * count is a multiple of the channel count these are exactly the frames of the buffer.
   */
  lemma LoopBound(sampleCount: nat, numChannels: nat, i: nat)
    requires numChannels >= 1
    ensures i * numChannels < sampleCount <==> i < (sampleCount + numChannels - 1) / numChannels
    ensures sampleCount % numChannels == 0 ==>
      (i * numChannels < sampleCount <==> i < sampleCount / numChannels)
  {
    BelowCeiling(sampleCount, numChannels, i, (sampleCount + numChannels - 1) / numChannels);
    if sampleCount % numChannels == 0 {
      BelowQuotient(sampleCount, numChannels, i, sampleCount / numChannels);
    }
  }

  /** The truncated frame count never exceeds the rounded-up one. */
  lemma FramesWithinIterations(sampleCount: nat, numChannels: nat)
    requires numChannels >= 1
    ensures sampleCount / numChannels <= (sampleCount + numChannels - 1) / numChannels
  {
    var f := sampleCount / numChannels;
    LoopBound(sampleCount, numChannels, f);
    if f > 0 {
      LoopBound(sampleCount, numChannels, f - 1);
    }
    assert f * numChannels <= sampleCount;
  }

  /** The samples of one channel: frame i is sample `i * numChannels + channel`. */
  function ChannelData(samples: seq<Int16>, numChannels: nat, channel: nat): (c: seq<Int16>)
    requires channel < numChannels
    ensures |c| == |samples| / numChannels
  {
    seq(|samples| / numChannels, i requires 0 <= i < |samples| / numChannels =>
      ReadIndexInRange(|samples|, numChannels, i, channel); samples[i * numChannels + channel])
  }

  lemma ChannelDataAt(samples: seq<Int16>, numChannels: nat, channel: nat, i: nat)
    requires channel < numChannels && i < |samples| / numChannels
    ensures i * numChannels + channel < |samples|
    ensures ChannelData(samples, numChannels, channel)[i] == samples[i * numChannels + channel]
  {
    ReadIndexInRange(|samples|, numChannels, i, channel);
  }

  /** A single channel is the whole sample sequence. */
  lemma MonoChannel(samples: seq<Int16>)
    ensures ChannelData(samples, 1, 0) == samples
  {
    var c := ChannelData(samples, 1, 0);
    forall i | 0 <= i < |samples| ensures c[i] == samples[i] {
      assert i * 1 + 0 == i;
    }
  }

  /**
   * Received mono audio that was produced by the sample layout `layout` and is read back
   * with the matching `join` gives back the samples.
   */
  lemma MonoRoundTrip(samples: seq<Int16>, layout: Int16 -> (bv8, bv8), join: (bv8, bv8) -> Int16)
    requires forall x :: join(layout(x).0, layout(x).1) == x
    ensures |SampleBytes(samples, layout)| % 2 == 0
    ensures ChannelData(Int16View(SampleBytes(samples, layout), join), 1, 0) == samples
  {
    Int16ViewOfSampleBytes(samples, layout, join);
    MonoChannel(samples);
  }

  /**
   * The inner loop of `decodeAudioData` over `buffer.getChannelData(channel)`. Its bound is
   * the real quotient `sampleCount / numChannels`, so it runs once more than the buffer has
   * frames when the division leaves a remainder; that last write falls past the end of the
   * channel array and is dropped.
   */
  method FillChannel(buffer: array2<Int16>, samples: seq<Int16>, numChannels: nat, channel: nat)
    requires channel < numChannels == buffer.Length0
    requires buffer.Length1 == |samples| / numChannels
    modifies buffer
    ensures forall k :: 0 <= k < buffer.Length1 ==>
      buffer[channel, k] == ChannelData(samples, numChannels, channel)[k]
    ensures forall c, k :: 0 <= c < buffer.Length0 && c != channel && 0 <= k < buffer.Length1 ==>
      buffer[c, k] == old(buffer[c, k])
  {
    var frameCount := buffer.Length1;
    var iterations := (|samples| + numChannels - 1) / numChannels;
    FramesWithinIterations(|samples|, numChannels);
    for i := 0 to iterations
      invariant forall k :: 0 <= k < i && k < frameCount ==>
        buffer[channel, k] == ChannelData(samples, numChannels, channel)[k]
      invariant forall c, k :: 0 <= c < buffer.Length0 && c != channel && 0 <= k < frameCount ==>
        buffer[c, k] == old(buffer[c, k])
    {
      if i < frameCount {
        ChannelDataAt(samples, numChannels, channel, i);
        buffer[channel, i] := samples[i * numChannels + channel];
      }
    }
  }

  /**
   * `decodeAudioData`: `None` for an odd byte count (`new Int16Array` over an odd-length
   * buffer), for zero channels, or for a truncated frame count of zero (`createBuffer`
   * rejects both). Otherwise channel c, frame i of the buffer holds sample
   * `i * numChannels + c` of the Int16 view. `data` stands for the whole buffer behind the
   * `Uint8Array`, and the sample rate is not a parameter.
   */
  method DecodeAudioData(data: array<bv8>, numChannels: nat, join: (bv8, bv8) -> Int16)
    returns (r: Option<array2<Int16>>)
    ensures r.Some? <==>
      data.Length % 2 == 0 && numChannels >= 1 && (data.Length / 2) / numChannels >= 1
    ensures r.Some? ==> fresh(r.value)
    ensures r.Some? ==>
      var samples := Int16View(data[..], join);
      r.value.Length0 == numChannels && r.value.Length1 == |samples| / numChannels &&
      forall c, i :: 0 <= c < numChannels && 0 <= i < r.value.Length1 ==>
        r.value[c, i] == ChannelData(samples, numChannels, c)[i]
  {
    if data.Length % 2 != 0 {
      return None;
    }
    var dataInt16 := Int16View(data[..], join);
    if numChannels == 0 {
      return None;
    }
    var frameCount := |dataInt16| / numChannels;
    if frameCount == 0 {
      return None;
    }
    var buffer := new Int16[numChannels, frameCount];
    for channel := 0 to numChannels
      invariant forall c, i :: 0 <= c < channel && 0 <= i < frameCount ==>
        buffer[c, i] == ChannelData(dataInt16, numChannels, c)[i]
    {
      FillChannel(buffer, dataInt16, numChannels, channel);
    }
    return Some(buffer);
  }
}
